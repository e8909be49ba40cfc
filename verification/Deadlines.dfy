/** The waiting bound over whole runs. */
module Deadlines {
  import opened Domain
  import opened Sums
  import opened Clusters
  import opened Waiting
  import B = Balancers
  import S = Servers
  import Wiring
  import Services
  import Slots
  import Timing
  import Runs

  // Tasks reach their server in the instant they are dispatched.

  ghost predicate SentAt(tasks: seq<TaskMsg>, now: Time)
  {
    forall i :: 0 <= i < |tasks| ==> tasks[i].task.dispatchedAt == Some(now)
  }

  lemma {:induction false} WaitingSent(fx: B.Effects, now: Time)
    requires fx.Valid() && SentAt(fx.out.tasks, now)
    ensures SentAt(B.DispatchWaiting(fx, now).out.tasks, now)
    decreases |fx.balancer.waiting|
  {
    var l := fx.balancer;
    if l.waiting != [] && l.queue != [] {
      var popped := fx.(balancer := l.(waiting := l.waiting[1..]));
      WaitingSent(B.DispatchHead(popped, l.waiting[0], now), now);
    }
  }

  lemma InputSent(l: B.Balancer, task: Task, now: Time, pick: nat)
    requires l.Valid() && pick < |l.cfg.serverIndices|
    ensures SentAt(B.Input(l, task, now, pick).out.tasks, now)
  {
    if l.cfg.policy == B.Centralized {
      WaitingSent(B.Start(B.Enqueued(l, task, now)), now);
    }
  }

  lemma InputFresh(g: Cluster, g0: Cluster, b: nat, task: Task, pick: nat)
    requires WellFormed(g) && CanPick(g, b, pick) && Fresh(g0) && g0.balancers == g.balancers
    ensures Fresh(AfterBalancer(g0, b, B.Input(g.balancers[b], task, g0.now, pick)))
  {
    InputSent(g.balancers[b], task, g0.now, pick);
  }

  lemma BalancerFresh(g: Cluster, step: Step)
    requires WellFormed(g) && Enabled(g, step) && Fresh(g)
    requires step.Arrive? || step.DeliverEvicted? || step.DeliverShed? || step.DeliverPull?
    ensures Fresh(Next(g, step))
  {
    match step
    case Arrive(i, pick) =>
      var a := g.arrivals[i];
      InputFresh(g, g.(now := a.at, arrivals := RemoveAt(g.arrivals, i)), a.lb, a.task, pick);
    case DeliverEvicted(i, pick) =>
      InputFresh(g, g.(evicted := RemoveAt(g.evicted, i)), g.topo.expressLb, g.evicted[i], pick);
    case DeliverShed(i, pick) => InputFresh(g, g.(shed := RemoveAt(g.shed, i)), g.shed[i].lb, g.shed[i].task, pick);
    case DeliverPull(i) => assert PullAt(g.topo, g.pulls[i]);
  }

  /** Time passes only once everything in transit has been delivered. */
  lemma AdvanceFresh(g: Cluster, at: Time)
    requires Fresh(g) && Due(g, at)
    ensures Fresh(g.(now := at))
  {
  }

  lemma FiredFresh(g: Cluster, step: Step)
    requires WellFormed(g) && Enabled(g, step) && Fresh(g)
    requires step.FireCompletion? || step.FireInitialPull? || step.FireTimer?
    ensures Fresh(Next(g, step))
  {
    match step
    case FireCompletion(i) => AdvanceFresh(g, g.completions[i].at);
    case FireInitialPull(i) => AdvanceFresh(g, g.initialPulls[i].at);
    case FireTimer(i) => AdvanceFresh(g, g.timers[i].at);
  }

  lemma NextFresh(g: Cluster, step: Step)
    requires WellFormed(g) && Enabled(g, step) && Fresh(g)
    ensures Fresh(Next(g, step))
  {
    match step
    case FireCompletion(_) => FiredFresh(g, step);
    case FireInitialPull(_) => FiredFresh(g, step);
    case FireTimer(_) => FiredFresh(g, step);
    case DeliverTask(i) => assert Next(g, step).tasks == RemoveAt(g.tasks, i);
    case DeliverIntent(_) => assert Next(g, step).tasks == g.tasks;
    case DeliverRelease(_) => assert Next(g, step).tasks == g.tasks;
    case _ => BalancerFresh(g, step);
  }

  // Departures

  /** A task that left the queue of its server at `at` left it in time. */
  ghost predicate InTime(p: Topology, t: Task, at: Time)
  {
    t.originServer < |p.servers| && Threshold(p.servers[t.originServer]).Some?
    ==> at <= Came(t) + Threshold(p.servers[t.originServer]).value
  }

  ghost predicate StartedInTime(p: Topology, t: Task)
  {
    t.serviceStartedAt.Some? && InTime(p, t, t.serviceStartedAt.value)
  }

  ghost predicate EvictedInTime(p: Topology, t: Task)
  {
    t.evictedAt.Some? && InTime(p, t, t.evictedAt.value)
  }

  ghost predicate ShedInTime(p: Topology, t: Task)
  {
    t.shedAt.Some? && InTime(p, t, t.shedAt.value)
  }

  /** Everything that has left a queue so far has left it in time. */
  ghost predicate Departed(g: Cluster)
  {
    && (forall i :: 0 <= i < |g.completions| ==> StartedInTime(g.topo, g.completions[i].task))
    && (forall i :: 0 <= i < |g.done| ==> StartedInTime(g.topo, g.done[i]))
    && (forall i :: 0 <= i < |g.evicted| ==> EvictedInTime(g.topo, g.evicted[i]))
    && (forall i :: 0 <= i < |g.shed| ==> ShedInTime(g.topo, g.shed[i].task))
  }

  ghost predicate Departs(p: Topology, fx: S.ServerEffects)
  {
    && (forall i :: 0 <= i < |fx.out.completions| ==> StartedInTime(p, fx.out.completions[i].task))
    && (forall i :: 0 <= i < |fx.out.finished| ==> StartedInTime(p, fx.out.finished[i]))
    && (forall i :: 0 <= i < |fx.out.evicted| ==> EvictedInTime(p, fx.out.evicted[i]))
    && (forall i :: 0 <= i < |fx.out.shed| ==> ShedInTime(p, fx.out.shed[i].task))
  }

  lemma ServerDeparted(g: Cluster, g0: Cluster, s: nat, fx: S.ServerEffects)
    requires Departed(g) && s < |g0.servers| && g0.topo == g.topo && Departs(g.topo, fx)
    requires g0.done == g.done && g0.evicted == g.evicted && g0.shed == g.shed
    requires forall i :: 0 <= i < |g0.completions| ==> g0.completions[i] in g.completions
    ensures Departed(AfterServer(g0, s, fx))
  {
  }

  /** Every task in the queue of a server is still in time at the next event. */
  lemma QueueInTime(g: Cluster, s: nat, at: Time)
    requires Ready(g) && s < |g.servers| && Earliest(g, at)
    ensures forall i :: 0 <= i < |g.servers[s].queue| ==> InTime(g.topo, g.servers[s].queue[i], at)
  {
    var v := g.servers[s];
    assert WaitsAt(g, s) && ServerWired(g.topo, s) && ServerAt(g.topo, s, v);
    assert v.queue != [] ==> Services.Pushes(g, s);
    forall i: nat | i < |v.queue| ensures InTime(g.topo, v.queue[i], at) {
      assert TaskAt(g.topo, s, v.queue[i]);
      if Threshold(v.cfg).Some? {
        assert WaitAt(v, g.timers, i, Threshold(v.cfg).value);
        StillInTime(g, s, i, Threshold(v.cfg).value, at);
      }
    }
  }

  lemma Stamping(p: Topology, t: Task, at: Time)
    ensures InTime(p, t, at) ==> EvictedInTime(p, t.(evictedAt := Some(at)))
    ensures InTime(p, t, at) ==> ShedInTime(p, t.(shedAt := Some(at)))
    ensures InTime(p, t, at) ==> StartedInTime(p, t.(serviceStartedAt := Some(at)))
  {
  }

  lemma {:induction false} DrainDeparts(p: Topology, fx: S.ServerEffects, now: Time)
    requires Departs(p, fx) && forall i :: 0 <= i < |fx.server.queue| ==> InTime(p, fx.server.queue[i], now)
    ensures Departs(p, S.DrainQueue(fx, now))
    decreases |fx.server.queue|
  {
    var v := fx.server;
    if v.inFlight < v.cfg.maxConcurrency && v.queue != [] {
      Stamping(p, v.queue[0], now);
      DrainDeparts(p, S.BeginService(S.TakeHead(fx, now), v.queue[0], now), now);
    }
  }

  lemma EvictionDeparts(p: Topology, fx: S.ServerEffects, start: Time, now: Time)
    requires fx.server.queue != [] && Departs(p, fx) && InTime(p, fx.server.queue[|fx.server.queue| - 1], now)
    ensures Departs(p, S.ApplyEviction(fx, start, now))
  {
    Stamping(p, fx.server.queue[|fx.server.queue| - 1], now);
  }

  lemma SheddingDeparts(p: Topology, fx: S.ServerEffects, start: Time, now: Time)
    requires fx.server.cfg.shedding.Some? ==> fx.server.queue != [] && InTime(p, fx.server.queue[|fx.server.queue| - 1], now)
    requires Departs(p, fx)
    ensures Departs(p, S.ApplyShedding(fx, start, now))
  {
    if fx.server.cfg.shedding.Some? {
      Stamping(p, fx.server.queue[|fx.server.queue| - 1], now);
    }
  }

  /** A task that leaves in the instant it comes leaves in time. */
  lemma InputDeparts(p: Topology, v: S.ServerState, task: Task, now: Time)
    requires v.Valid() && task.dispatchedAt == Some(now)
    ensures Departs(p, S.Input(v, task, now))
  {
    Stamping(p, task, now);
    if v.cfg.mode == S.Push && v.inFlight >= v.cfg.maxConcurrency {
      var queued := S.Begin(S.SampleLevel(v.(queue := v.queue + [task]), now));
      EvictionDeparts(p, queued, task.start, now);
      SheddingDeparts(p, S.ApplyEviction(queued, task.start, now), task.start, now);
    }
  }

  lemma CompleteDeparts(p: Topology, v: S.ServerState, task: Task, now: Time)
    requires v.inFlight > 0 && StartedInTime(p, task)
    requires forall i :: 0 <= i < |v.queue| ==> InTime(p, v.queue[i], now)
    ensures Departs(p, S.Complete(v, task, now))
  {
    var ended := S.Ended(v, task, now);
    assert StartedInTime(p, task.(finish := now, servedByExpress := v.cfg.isExpress));
    if v.cfg.mode == S.Push {
      DrainDeparts(p, ended, now);
    }
  }

  lemma TimerDeparts(p: Topology, v: S.ServerState, e: S.TimerEvent)
    requires forall i :: 0 <= i < |v.queue| ==> InTime(p, v.queue[i], e.at)
    ensures Departs(p, TimerEffects(v, e))
  {
    var j := S.TaskPosition(v.queue, e.start);
    if j < |v.queue| {
      Stamping(p, v.queue[j], e.at);
    }
  }

  lemma TaskDeparted(g: Cluster, i: nat)
    requires Ready(g) && Departed(g) && i < |g.tasks|
    ensures Departed(TaskDelivered(g, i))
  {
    var m := g.tasks[i];
    assert TaskAt(g.topo, m.server, m.task);
    InputDeparts(g.topo, g.servers[m.server], m.task, g.now);
    ServerDeparted(g, g.(tasks := RemoveAt(g.tasks, i)), m.server, S.Input(g.servers[m.server], m.task, g.now));
  }

  lemma CompletionDeparted(g: Cluster, i: nat)
    requires Ready(g) && Departed(g) && i < |g.completions| && Enabled(g, FireCompletion(i))
    ensures Departed(CompletionFired(g, i))
  {
    var c := g.completions[i];
    assert CompletionAt(g.topo, c);
    QueueInTime(g, c.server, c.at);
    CompleteDeparts(g.topo, g.servers[c.server], c.task, c.at);
    ServerDeparted(g, g.(now := c.at, completions := RemoveAt(g.completions, i)), c.server,
                   S.Complete(g.servers[c.server], c.task, c.at));
  }

  lemma TimerDeparted(g: Cluster, i: nat)
    requires Ready(g) && Departed(g) && i < |g.timers| && Enabled(g, FireTimer(i))
    ensures Departed(TimerFired(g, i))
  {
    var e := g.timers[i];
    assert TimerAt(g.topo, e);
    QueueInTime(g, e.server, e.at);
    TimerDeparts(g.topo, g.servers[e.server], e);
    ServerDeparted(g, g.(now := e.at, timers := RemoveAt(g.timers, i)), e.server, TimerEffects(g.servers[e.server], e));
  }

  lemma IntentDeparted(g: Cluster, i: nat)
    requires WellFormed(g) && Departed(g) && i < |g.intents|
    ensures Departed(IntentDelivered(g, i))
  {
    var m := g.intents[i];
    assert IntentAt(g.topo, m.server, m.intent);
    ServerDeparted(g, g.(intents := RemoveAt(g.intents, i)), m.server, S.ReceiveIntent(g.servers[m.server], m.intent));
  }

  lemma InputKeepsDeparted(g: Cluster, step: Step)
    requires WellFormed(g) && Enabled(g, step) && Departed(g)
    requires step.Arrive? || step.DeliverEvicted? || step.DeliverShed?
    ensures Departed(Next(g, step))
  {
  }

  lemma PullDeparted(g: Cluster, step: Step)
    requires WellFormed(g) && Enabled(g, step) && Departed(g)
    requires step.DeliverPull? || step.DeliverRelease?
    ensures Departed(Next(g, step))
  {
  }

  lemma InitialPullDeparted(g: Cluster, i: nat)
    requires WellFormed(g) && Departed(g) && i < |g.initialPulls|
    ensures Departed(InitialPullFired(g, i))
  {
    var q := g.initialPulls[i];
    ServerDeparted(g, g.(now := q.at, initialPulls := RemoveAt(g.initialPulls, i)), q.server,
                   S.RequestPull(g.servers[q.server]));
  }

  lemma NextDeparted(g: Cluster, step: Step)
    requires Ready(g) && Enabled(g, step) && Departed(g)
    ensures Departed(Next(g, step))
  {
    match step
    case DeliverTask(i) => TaskDeparted(g, i);
    case DeliverIntent(i) => IntentDeparted(g, i);
    case FireCompletion(i) => CompletionDeparted(g, i);
    case FireInitialPull(i) => InitialPullDeparted(g, i);
    case FireTimer(i) => TimerDeparted(g, i);
    case DeliverPull(_) => PullDeparted(g, step);
    case DeliverRelease(_) => PullDeparted(g, step);
    case _ => InputKeepsDeparted(g, step);
  }

  // Whole runs

  lemma NextReady(g: Cluster, step: Step)
    requires Ready(g) && Enabled(g, step) && Clear(Next(g, step))
    ensures Ready(Next(g, step))
  {
    Wiring.NextKeepsWellFormed(g, step);
    Timing.NextKeepsTimely(g, step);
    Services.NextKeepsServices(g, step);
    Slots.NextKeepsSlots(g, step);
    NextFresh(g, step);
    forall s: nat | s < |Next(g, step).servers| ensures WaitsAt(Next(g, step), s) {
      SameServers(g, step);
      NextWaitsAt(g, step, s);
    }
  }

  lemma SameServers(g: Cluster, step: Step)
    requires WellFormed(g) && Enabled(g, step)
    ensures |Next(g, step).servers| == |g.servers|
  {
  }

  lemma InitialReady(g: Cluster)
    requires Initial(g) && Clear(g)
    ensures Ready(g) && Departed(g)
  {
    Timing.InitialTimely(g);
    Services.InitialServices(g);
    Slots.InitialSlots(g);
  }

  /** Every state of the run keeps queued tasks and running services apart by the times they are filed under. */
  ghost predicate ClearRun(states: seq<Cluster>, steps: seq<Step>)
  {
    Run(states, steps) && forall i :: 0 <= i < |states| ==> Clear(states[i])
  }

  lemma {:induction false} EveryRunIsReady(states: seq<Cluster>, steps: seq<Step>)
    requires ClearRun(states, steps)
    ensures Ready(Runs.Final(states)) && Departed(Runs.Final(states))
    decreases |steps|
  {
    if steps == [] {
      InitialReady(states[0]);
    } else {
      var n := |steps| - 1;
      Runs.RunPrefix(states, steps);
      EveryRunIsReady(states[..|steps|], steps[..n]);
      var g := Runs.Final(states[..|steps|]);
      assert Clear(states[|steps|]);
      NextReady(g, steps[n]);
      NextDeparted(g, steps[n]);
    }
  }

  /** The waiting bound under these assumptions. At any point of a run no task has been in a server's queue for longer than the threshold,
      and every task that has left one, to be served, evicted or shed, left it within the threshold. */
  lemma ClearRunBound(states: seq<Cluster>, steps: seq<Step>)
    requires ClearRun(states, steps)
    ensures var g := Runs.Final(states);
            && Departed(g)
            && (forall s, i :: 0 <= s < |g.servers| && 0 <= i < |g.servers[s].queue| ==>
                  InTime(g.topo, g.servers[s].queue[i], g.now))
  {
    EveryRunIsReady(states, steps);
    var g := Runs.Final(states);
    forall s, i | 0 <= s < |g.servers| && 0 <= i < |g.servers[s].queue|
      ensures InTime(g.topo, g.servers[s].queue[i], g.now)
    {
      QueueInTime(g, s, g.now);
    }
  }

  // The estimate is a promise, whatever the policy.

  /** Task `t` is in the queue of server `s` and on track to be finished within `d`. */
  ghost predicate Tracked(g: Cluster, s: nat, t: Task, d: nat)
  {
    s < |g.servers| && exists i :: 0 <= i < |g.servers[s].queue| && TrackedAt(g.servers[s], i, t, d)
  }

  ghost predicate TrackedAt(v: S.ServerState, i: nat, t: Task, d: nat)
    requires i < |v.queue|
  {
    v.queue[i] == t && OnTrack(v.services, v.queue, i, d)
  }

  /** The task starts now and will be finished within `d` of its coming. */
  ghost predicate StartsInTime(g: Cluster, s: nat, t: Task, d: nat)
  {
    exists c :: c in g.completions && c.server == s && c.task == t.(serviceStartedAt := Some(g.now)) && c.at <= Came(t) + d
  }

  lemma InputQueue(v: S.ServerState, task: Task, now: Time)
    requires v.Valid() && v.cfg.mode == S.Push && v.inFlight >= v.cfg.maxConcurrency
    ensures var fx := S.Input(v, task, now);
            fx.server.services == v.services && (fx.server.queue == v.queue || fx.server.queue == v.queue + [task])
  {
    var queued := S.Begin(S.SampleLevel(v.(queue := v.queue + [task]), now));
    assert RemoveAt(v.queue + [task], |v.queue|) == v.queue;
    EvictionQueue(v, queued, task, task.start, now);
  }

  lemma EvictionQueue(v: S.ServerState, fx: S.ServerEffects, task: Task, start: Time, now: Time)
    requires fx.server.queue == v.queue + [task] && fx.server.services == v.services && fx.server.cfg == v.cfg
    ensures var r := S.ApplyEviction(fx, start, now);
            && r.server.services == v.services && r.server.cfg == v.cfg
            && (r.server.queue == v.queue || r.server.queue == v.queue + [task])
            && (v.cfg.eviction.None? ==> r == fx)
  {
    assert RemoveAt(v.queue + [task], |v.queue|) == v.queue;
  }

  lemma TaskKeepsTrack(g: Cluster, j: nat, s: nat, t: Task, d: nat)
    requires Ready(g) && j < |g.tasks| && Tracked(g, s, t, d) && g.servers[s].cfg.mode == S.Push
    ensures Tracked(TaskDelivered(g, j), s, t, d)
  {
    var m := g.tasks[j];
    assert TaskAt(g.topo, m.server, m.task);
    var v, w := g.servers[s], TaskDelivered(g, j).servers[s];
    var i :| 0 <= i < |v.queue| && TrackedAt(v, i, t, d);
    if m.server == s {
      assert Slots.SlotsAt(g, s) && ServerAt(g.topo, s, v);
      InputQueue(v, m.task, g.now);
      assert w.queue[..i + 1] == v.queue[..i + 1];
    }
    assert TrackedAt(w, i, t, d);
  }

  lemma TimerKeepsTrack(g: Cluster, j: nat, s: nat, t: Task, d: nat)
    requires Ready(g) && j < |g.timers| && Tracked(g, s, t, d)
    requires g.timers[j].server != s || g.timers[j].start != t.start
    ensures Tracked(TimerFired(g, j), s, t, d)
  {
    var e := g.timers[j];
    assert TimerAt(g.topo, e);
    var v, w := g.servers[s], TimerFired(g, j).servers[s];
    var i :| 0 <= i < |v.queue| && TrackedAt(v, i, t, d);
    var k := S.TaskPosition(v.queue, e.start);
    if e.server == s && k < |v.queue| {
      RemovalBringsForward(v.services, v.queue, k, i, d);
      assert w.queue == RemoveAt(v.queue, k);
      assert TrackedAt(w, if i < k then i else i - 1, t, d);
    } else {
      assert TrackedAt(w, i, t, d);
    }
  }

  lemma CompleteKeepsTrack(v: S.ServerState, task: Task, at: Time, i: nat, t: Task, d: nat)
    requires v.cfg.mode == S.Push && 0 < v.inFlight == v.cfg.maxConcurrency && i < |v.queue| && TrackedAt(v, i, t, d)
    requires forall k :: 0 <= k < |v.services| ==> at <= Ends(v.services[k])
    ensures var fx := S.Complete(v, task, at);
            && |fx.server.queue| == |v.queue| - 1
            && (i > 0 ==> TrackedAt(fx.server, i - 1, t, d))
            && (i == 0 ==> exists c :: c in fx.out.completions && c.server == v.cfg.index
                             && c.task == t.(serviceStartedAt := Some(at)) && c.at <= Came(t) + d)
  {
    var fx := S.Complete(v, task, at);
    CompleteTakesHead(v, task, at);
    if i > 0 {
      HeadMakesWay(v.services, fx.server.services, v.queue, at, i, d);
    } else {
      assert v.queue[..1] == [t];
      WorkFromHead([t]);
      assert fx.out.completions[0] in fx.out.completions;
    }
  }

  lemma HereKeepsTrack(g: Cluster, g0: Cluster, s: nat, fx: S.ServerEffects, i: nat, t: Task, d: nat)
    requires s < |g0.servers| && g0.servers == g.servers && i < |g.servers[s].queue|
    requires |fx.server.queue| == |g.servers[s].queue| - 1 && (i > 0 ==> TrackedAt(fx.server, i - 1, t, d))
    requires i == 0 ==> exists c :: c in fx.out.completions && c.server == s
                          && c.task == t.(serviceStartedAt := Some(g0.now)) && c.at <= Came(t) + d
    ensures Tracked(AfterServer(g0, s, fx), s, t, d) || StartsInTime(AfterServer(g0, s, fx), s, t, d)
  {
    var h := AfterServer(g0, s, fx);
    if i > 0 {
      assert TrackedAt(h.servers[s], i - 1, t, d);
    } else {
      var c :| c in fx.out.completions && c.server == s
                 && c.task == t.(serviceStartedAt := Some(g0.now)) && c.at <= Came(t) + d;
      assert c in h.completions;
    }
  }

  lemma CompletionKeepsTrack(g: Cluster, j: nat, s: nat, t: Task, d: nat)
    requires Ready(g) && j < |g.completions| && Enabled(g, FireCompletion(j)) && Tracked(g, s, t, d)
    requires g.servers[s].cfg.mode == S.Push
    ensures Tracked(CompletionFired(g, j), s, t, d) || StartsInTime(CompletionFired(g, j), s, t, d)
  {
    var c := g.completions[j];
    assert CompletionAt(g.topo, c);
    var v := g.servers[s];
    var i :| 0 <= i < |v.queue| && TrackedAt(v, i, t, d);
    if c.server != s {
      assert TrackedAt(CompletionFired(g, j).servers[s], i, t, d);
    } else {
      CompletionFacts(g, j);
      CompleteKeepsTrack(v, c.task, c.at, i, t, d);
      HereKeepsTrack(g, g.(now := c.at, completions := RemoveAt(g.completions, j)), s, S.Complete(v, c.task, c.at), i, t, d);
    }
  }

  lemma CompletionFacts(g: Cluster, j: nat)
    requires Ready(g) && j < |g.completions| && Enabled(g, FireCompletion(j))
    requires Services.Pushes(g, g.completions[j].server)
    ensures var c := g.completions[j];
            var v := g.servers[c.server];
            && v.cfg.index == c.server
            && (v.cfg.mode == S.Push && v.queue != [] ==> v.inFlight == v.cfg.maxConcurrency)
            && (forall k :: 0 <= k < |v.services| ==> c.at <= Ends(v.services[k]))
  {
    var c := g.completions[j];
    assert Slots.SlotsAt(g, c.server) && ServerWired(g.topo, c.server);
    forall k: nat | k < |g.servers[c.server].services| ensures c.at <= Ends(g.servers[c.server].services[k]) {
      RecordEndsLater(g, c.server, k, c.at);
    }
  }

  /** A task that is on track stays on track through every later event, arrivals, evictions and completions in any
      order, until it starts early enough to be finished in time, or its own timer takes it out. */
  lemma EstimateIsKept(g: Cluster, step: Step, s: nat, t: Task, d: nat)
    requires Ready(g) && Enabled(g, step) && Tracked(g, s, t, d) && g.servers[s].cfg.mode == S.Push
    ensures || Tracked(Next(g, step), s, t, d) || StartsInTime(Next(g, step), s, t, d)
            || (step.FireTimer? && g.timers[step.i].server == s && g.timers[step.i].start == t.start)
  {
    match step
    case DeliverTask(j) => TaskKeepsTrack(g, j, s, t, d);
    case FireCompletion(j) => CompletionKeepsTrack(g, j, s, t, d);
    case FireTimer(j) =>
      if g.timers[j].server != s || g.timers[j].start != t.start {
        TimerKeepsTrack(g, j, s, t, d);
      }
    case _ => OtherKeepsTrack(g, step, s, t, d);
  }

  lemma OtherKeepsTrack(g: Cluster, step: Step, s: nat, t: Task, d: nat)
    requires Ready(g) && Enabled(g, step) && Tracked(g, s, t, d)
    requires !step.DeliverTask? && !step.FireCompletion? && !step.FireTimer?
    ensures Tracked(Next(g, step), s, t, d)
  {
    var v := g.servers[s];
    var i :| 0 <= i < |v.queue| && TrackedAt(v, i, t, d);
    QueueUntouched(g, step, s);
    assert TrackedAt(Next(g, step).servers[s], i, t, d);
  }

  lemma QueueUntouched(g: Cluster, step: Step, s: nat)
    requires WellFormed(g) && Enabled(g, step) && s < |g.servers|
    requires !step.DeliverTask? && !step.FireCompletion? && !step.FireTimer?
    ensures s < |Next(g, step).servers| && Next(g, step).servers[s].queue == g.servers[s].queue
    ensures Next(g, step).servers[s].services == g.servers[s].services
  {
    match step
    case DeliverIntent(i) => IntentLeavesQueue(g, i, s);
    case FireInitialPull(i) => InitialPullLeavesQueue(g, i, s);
    case _ => BalancerLeavesServers(g, step);
  }

  lemma IntentLeavesQueue(g: Cluster, i: nat, s: nat)
    requires WellFormed(g) && i < |g.intents| && s < |g.servers|
    ensures var h := IntentDelivered(g, i);
            |h.servers| == |g.servers| && h.servers[s].queue == g.servers[s].queue && h.servers[s].services == g.servers[s].services
  {
    assert IntentAt(g.topo, g.intents[i].server, g.intents[i].intent);
  }

  lemma InitialPullLeavesQueue(g: Cluster, i: nat, s: nat)
    requires WellFormed(g) && i < |g.initialPulls| && s < |g.servers|
    ensures var h := InitialPullFired(g, i);
            |h.servers| == |g.servers| && h.servers[s].queue == g.servers[s].queue && h.servers[s].services == g.servers[s].services
  {
  }

  lemma BalancerLeavesServers(g: Cluster, step: Step)
    requires WellFormed(g) && Enabled(g, step)
    requires step.Arrive? || step.DeliverPull? || step.DeliverRelease? || step.DeliverEvicted? || step.DeliverShed?
    ensures Next(g, step).servers == g.servers
  {
  }
}
