/** Every step keeps every message, queue entry and event where the wiring says it can be. */
module Wiring {
  import opened Domain
  import opened Sums
  import opened Clusters
  import B = Balancers
  import S = Servers

  ghost predicate SendsAt(p: Topology, b: nat, fx: B.Effects)
  {
    && b < |p.balancers| && BalancerAt(p, b, fx.balancer)
    && TasksAt(p, fx.out.tasks) && IntentsAt(p, fx.out.intents)
  }

  ghost predicate SendsFrom(p: Topology, s: nat, fx: S.ServerEffects)
  {
    && s < |p.servers| && ServerAt(p, s, fx.server)
    && CompletionsAt(p, fx.out.completions) && TimersAt(p, fx.out.scheduled)
    && ReleasesAt(p, fx.out.releases) && PullsAt(p, fx.out.pulls)
    && EvictedAt(p, fx.out.evicted) && ShedAt(p, fx.out.shed) && DoneAt(p, fx.out.finished)
  }

  // Balancer handlers

  lemma DispatchSends(p: Topology, b: nat, fx: B.Effects, server: nat, task: Task, now: Time)
    requires Wired(p) && SendsAt(p, b, fx)
    requires server < |fx.balancer.localInflight|
    requires fx.balancer.cfg.preserveMetadata ==> Owned(p, task) && Pullable(p, b, server)
    ensures SendsAt(p, b, B.DispatchTo(fx, server, task, now))
  {
    assert BalancerWired(p, b) && ServerWired(p, server);
    assert TaskAt(p, server, B.Stamped(fx.balancer, server, task, now));
  }

  lemma HeadSends(p: Topology, b: nat, fx: B.Effects, server: nat, now: Time)
    requires Wired(p) && SendsAt(p, b, fx)
    requires server < |fx.balancer.localInflight| && fx.balancer.queue != [] && Pullable(p, b, server)
    ensures SendsAt(p, b, B.DispatchHead(fx, server, now))
  {
    DispatchSends(p, b, fx.(balancer := B.Dequeued(fx.balancer, 0, now)), server, fx.balancer.queue[0], now);
  }

  lemma {:induction false} WaitingSends(p: Topology, b: nat, fx: B.Effects, now: Time)
    requires Wired(p) && SendsAt(p, b, fx)
    ensures SendsAt(p, b, B.DispatchWaiting(fx, now))
    decreases |fx.balancer.waiting|
  {
    var l := fx.balancer;
    if l.waiting != [] && l.queue != [] {
      var popped := fx.(balancer := l.(waiting := l.waiting[1..]));
      HeadSends(p, b, popped, l.waiting[0], now);
      WaitingSends(p, b, B.DispatchHead(popped, l.waiting[0], now), now);
    }
  }

  lemma InputSends(p: Topology, b: nat, l: B.Balancer, task: Task, now: Time, pick: nat)
    requires Wired(p) && b < |p.balancers| && BalancerAt(p, b, l) && pick < |l.cfg.serverIndices|
    requires l.cfg.preserveMetadata ==> Owned(p, task)
    ensures SendsAt(p, b, B.Input(l, task, now, pick))
  {
    assert BalancerWired(p, b);
    match l.cfg.policy
    case Centralized => WaitingSends(p, b, B.Start(B.Enqueued(l, task, now)), now);
    case AmphiQueue =>
    case Push => DispatchSends(p, b, B.Start(l), l.cfg.serverIndices[pick], task, now);
  }

  lemma PullSends(p: Topology, b: nat, l: B.Balancer, pull: PullRequest, now: Time)
    requires Wired(p) && b < |p.balancers| && BalancerAt(p, b, l) && PullAt(p, PullMsg(b, pull))
    ensures var r := B.Pull(l, pull, now); r.Fulfilled? ==> SendsAt(p, b, r.effects)
  {
    assert BalancerWired(p, b);
    if l.cfg.policy == B.AmphiQueue {
      var i := B.PullIndex(l, pull);
      if i < |l.queue| {
        var taken := B.Dequeued(l, i, now);
        var load := l.intentLoad[pull.serverIdx := SaturatingSub(l.intentLoad[pull.serverIdx], 1)];
        var fx := B.Effects(taken.(intentLoad := load), B.Fulfil(l, pull, i, now).out.(tasks := []));
        DispatchSends(p, b, fx, pull.serverIdx, l.queue[i], now);
      }
    } else if l.queue != [] {
      HeadSends(p, b, B.Start(l), pull.serverIdx, now);
    }
  }

  // Server handlers

  lemma BeginServiceSends(p: Topology, s: nat, fx: S.ServerEffects, task: Task, now: Time)
    requires SendsFrom(p, s, fx) && ServerWired(p, s) && TaskAt(p, s, task)
    ensures SendsFrom(p, s, S.BeginService(fx, task, now))
  {
    assert TaskAt(p, s, task.(serviceStartedAt := Some(now)));
  }

  lemma EvictSends(p: Topology, s: nat, fx: S.ServerEffects, i: nat, now: Time)
    requires SendsFrom(p, s, fx) && ServerWired(p, s) && i < |fx.server.queue| && ExpressLb(p)
    ensures SendsFrom(p, s, S.EvictAt(fx, i, now))
  {
    assert TaskAt(p, s, fx.server.queue[i]);
    assert Owned(p, fx.server.queue[i].(evictedAt := Some(now)));
  }

  lemma ShedSends(p: Topology, s: nat, fx: S.ServerEffects, i: nat, now: Time)
    requires SendsFrom(p, s, fx) && ServerWired(p, s) && i < |fx.server.queue| && fx.server.cfg.shedding.Some?
    ensures SendsFrom(p, s, S.ShedAt(fx, i, now))
  {
    assert TaskAt(p, s, fx.server.queue[i]);
    assert Sheds(p);
    var r := S.ShedAt(fx, i, now);
    assert forall j :: 0 <= j < |r.out.shed| ==> r.out.shed[j] in fx.out.shed || r.out.shed[j].task.lbId == r.out.shed[j].lb;
  }

  lemma {:induction false} DrainQueueSends(p: Topology, s: nat, fx: S.ServerEffects, now: Time)
    requires SendsFrom(p, s, fx) && ServerWired(p, s)
    ensures SendsFrom(p, s, S.DrainQueue(fx, now))
    decreases |fx.server.queue|
  {
    var v := fx.server;
    if v.inFlight < v.cfg.maxConcurrency && v.queue != [] {
      assert SendsFrom(p, s, S.TakeHead(fx, now));
      BeginServiceSends(p, s, S.TakeHead(fx, now), v.queue[0], now);
      DrainQueueSends(p, s, S.BeginService(S.TakeHead(fx, now), v.queue[0], now), now);
    }
  }

  lemma DrainIntentsSends(p: Topology, s: nat, fx: S.ServerEffects)
    requires Wired(p) && SendsFrom(p, s, fx)
    ensures SendsFrom(p, s, S.DrainIntents(fx))
  {
    var v := fx.server;
    if v.inFlight + v.pendingPulls < v.cfg.maxConcurrency && v.intents != [] {
      assert ServerWired(p, s) && IntentAt(p, s, v.intents[0]) && BalancerWired(p, v.intents[0].senderId);
    }
  }

  lemma EvictionSends(p: Topology, s: nat, fx: S.ServerEffects, start: Time, now: Time)
    requires SendsFrom(p, s, fx) && ServerWired(p, s) && fx.server.queue != []
    ensures SendsFrom(p, s, S.ApplyEviction(fx, start, now))
  {
    if fx.server.cfg.eviction.Some? {
      EvictSends(p, s, fx, |fx.server.queue| - 1, now);
      match fx.server.cfg.eviction.value
      case QueueDepth(_) =>
      case QueueDelay(threshold, _) => assert SendsFrom(p, s, S.ScheduleEviction(fx, start, threshold, now));
      case Combined(_, threshold) => assert SendsFrom(p, s, S.ScheduleEviction(fx, start, threshold, now));
    }
  }

  lemma SheddingSends(p: Topology, s: nat, fx: S.ServerEffects, start: Time, now: Time)
    requires SendsFrom(p, s, fx) && ServerWired(p, s)
    requires fx.server.cfg.shedding.Some? ==> fx.server.queue != []
    ensures SendsFrom(p, s, S.ApplyShedding(fx, start, now))
  {
    if fx.server.cfg.shedding.Some? {
      ShedSends(p, s, fx, |fx.server.queue| - 1, now);
    }
  }

  lemma ServerInputSends(p: Topology, s: nat, v: S.ServerState, task: Task, now: Time)
    requires s < |p.servers| && ServerWired(p, s) && ServerAt(p, s, v) && TaskAt(p, s, task)
    ensures SendsFrom(p, s, S.Input(v, task, now))
  {
    if v.cfg.mode == S.AmphiQueue {
      BeginServiceSends(p, s, S.Begin(v.(pendingPulls := SaturatingSub(v.pendingPulls, 1))), task, now);
    } else if v.cfg.mode == S.Centralized || v.inFlight < v.cfg.maxConcurrency {
      BeginServiceSends(p, s, S.Begin(v), task, now);
    } else {
      var queued := S.Begin(S.SampleLevel(v.(queue := v.queue + [task]), now));
      assert SendsFrom(p, s, queued);
      EvictionSends(p, s, queued, task.start, now);
      SheddingSends(p, s, S.ApplyEviction(queued, task.start, now), task.start, now);
    }
  }

  lemma ReleasesSend(p: Topology, s: nat, v: S.ServerState, task: Task)
    requires s < |p.servers| && ServerWired(p, s) && ServerAt(p, s, v) && TaskAt(p, s, task)
    ensures ReleasesAt(p, S.ReleasesOf(v, task))
  {
  }

  lemma CompleteSends(p: Topology, s: nat, v: S.ServerState, task: Task, now: Time)
    requires Wired(p) && s < |p.servers| && ServerAt(p, s, v) && CompletionAt(p, S.Completion(now, s, task))
    requires v.inFlight > 0
    ensures SendsFrom(p, s, S.Complete(v, task, now))
  {
    assert ServerWired(p, s);
    ReleasesSend(p, s, v, task);
    var ended := S.Ended(v, task, now);
    assert SendsFrom(p, s, ended);
    match v.cfg.mode
    case Centralized => assert BalancerWired(p, v.cfg.homeLb);
    case AmphiQueue => DrainIntentsSends(p, s, ended);
    case Push => DrainQueueSends(p, s, ended, now);
  }

  lemma RequestPullSends(p: Topology, s: nat, v: S.ServerState)
    requires Wired(p) && s < |p.servers| && ServerAt(p, s, v)
    ensures SendsFrom(p, s, S.RequestPull(v))
  {
    assert ServerWired(p, s);
    if v.cfg.mode == S.Centralized {
      assert BalancerWired(p, v.cfg.homeLb);
    }
  }

  lemma ReceiveIntentSends(p: Topology, s: nat, v: S.ServerState, it: PullIntent)
    requires Wired(p) && s < |p.servers| && ServerAt(p, s, v) && IntentAt(p, s, it)
    ensures SendsFrom(p, s, S.ReceiveIntent(v, it))
  {
    assert ServerWired(p, s);
    var event := IntentQueued(v.cfg.index, it.senderId, it.requestId, |v.intents|);
    DrainIntentsSends(p, s, S.ServerEffects(v.(intents := v.intents + [it]), S.NOTHING.(audit := [event])));
  }

  lemma TimerSends(p: Topology, e: S.TimerEvent, v: S.ServerState)
    requires Wired(p) && TimerAt(p, e) && ServerAt(p, e.server, v)
    ensures SendsFrom(p, e.server, TimerEffects(v, e))
  {
    assert ServerWired(p, e.server);
    var i := S.TaskPosition(v.queue, e.start);
    if i < |v.queue| {
      if e.kind == S.Evict {
        EvictSends(p, e.server, S.Begin(v.(pendingEvictions := S.WithoutTimers(v.pendingEvictions, e.start))), i, e.at);
      } else {
        ShedSends(p, e.server, S.Begin(v.(pendingSheds := S.WithoutTimers(v.pendingSheds, e.start))), i, e.at);
      }
    }
  }

  // The cluster

  lemma BalancerKeepsWellFormed(g: Cluster, b: nat, fx: B.Effects)
    requires WellFormed(g) && SendsAt(g.topo, b, fx)
    ensures WellFormed(AfterBalancer(g, b, fx))
  {
  }

  lemma ServerKeepsWellFormed(g: Cluster, s: nat, fx: S.ServerEffects)
    requires WellFormed(g) && SendsFrom(g.topo, s, fx)
    ensures WellFormed(AfterServer(g, s, fx))
  {
    var h := AfterServer(g, s, fx);
    forall i | 0 <= i < |h.timers| ensures TimerAt(g.topo, h.timers[i]) {
      assert h.timers[i] in g.timers || h.timers[i] in fx.out.scheduled;
    }
    forall i | 0 <= i < |h.evicted| ensures Owned(g.topo, h.evicted[i]) && ExpressLb(g.topo) {
      assert h.evicted[i] in g.evicted || h.evicted[i] in fx.out.evicted;
    }
  }

  lemma ArrivedWellFormed(g: Cluster, i: nat, pick: nat)
    requires WellFormed(g) && i < |g.arrivals| && CanPick(g, g.arrivals[i].lb, pick)
    ensures WellFormed(Arrived(g, i, pick))
  {
    var a := g.arrivals[i];
    InputSends(g.topo, a.lb, g.balancers[a.lb], a.task, a.at, pick);
    BalancerKeepsWellFormed(g.(now := a.at, arrivals := RemoveAt(g.arrivals, i)), a.lb,
                            B.Input(g.balancers[a.lb], a.task, a.at, pick));
  }

  lemma PullWellFormed(g: Cluster, i: nat)
    requires WellFormed(g) && i < |g.pulls|
    ensures WellFormed(PullDelivered(g, i))
  {
    var m := g.pulls[i];
    assert PullAt(g.topo, m);
    PullSends(g.topo, m.lb, g.balancers[m.lb], m.pull, g.now);
    var r := B.Pull(g.balancers[m.lb], m.pull, g.now);
    if r.Fulfilled? {
      BalancerKeepsWellFormed(g.(pulls := RemoveAt(g.pulls, i)), m.lb, r.effects);
    }
  }

  lemma ReleaseWellFormed(g: Cluster, i: nat)
    requires WellFormed(g) && i < |g.releases|
    ensures WellFormed(ReleaseDelivered(g, i))
  {
    var m := g.releases[i];
    assert ReleaseAt(g.topo, m);
    BalancerKeepsWellFormed(g.(releases := RemoveAt(g.releases, i)), m.lb,
                            B.Start(B.Release(g.balancers[m.lb], m.server)));
  }

  lemma EvictedWellFormed(g: Cluster, i: nat, pick: nat)
    requires WellFormed(g) && i < |g.evicted| && CanPick(g, g.topo.expressLb, pick)
    ensures WellFormed(EvictedDelivered(g, i, pick))
  {
    var b := g.topo.expressLb;
    InputSends(g.topo, b, g.balancers[b], g.evicted[i], g.now, pick);
    BalancerKeepsWellFormed(g.(evicted := RemoveAt(g.evicted, i)), b,
                            B.Input(g.balancers[b], g.evicted[i], g.now, pick));
  }

  lemma ShedWellFormed(g: Cluster, i: nat, pick: nat)
    requires WellFormed(g) && i < |g.shed| && CanPick(g, g.shed[i].lb, pick)
    ensures WellFormed(ShedDelivered(g, i, pick))
  {
    var m := g.shed[i];
    InputSends(g.topo, m.lb, g.balancers[m.lb], m.task, g.now, pick);
    BalancerKeepsWellFormed(g.(shed := RemoveAt(g.shed, i)), m.lb, B.Input(g.balancers[m.lb], m.task, g.now, pick));
  }

  lemma TaskWellFormed(g: Cluster, i: nat)
    requires WellFormed(g) && i < |g.tasks|
    ensures WellFormed(TaskDelivered(g, i))
  {
    var m := g.tasks[i];
    assert TaskAt(g.topo, m.server, m.task) && ServerWired(g.topo, m.server);
    ServerInputSends(g.topo, m.server, g.servers[m.server], m.task, g.now);
    ServerKeepsWellFormed(g.(tasks := RemoveAt(g.tasks, i)), m.server, S.Input(g.servers[m.server], m.task, g.now));
  }

  lemma IntentWellFormed(g: Cluster, i: nat)
    requires WellFormed(g) && i < |g.intents|
    ensures WellFormed(IntentDelivered(g, i))
  {
    var m := g.intents[i];
    assert IntentAt(g.topo, m.server, m.intent);
    ReceiveIntentSends(g.topo, m.server, g.servers[m.server], m.intent);
    ServerKeepsWellFormed(g.(intents := RemoveAt(g.intents, i)), m.server,
                          S.ReceiveIntent(g.servers[m.server], m.intent));
  }

  lemma CompletionWellFormed(g: Cluster, i: nat)
    requires WellFormed(g) && i < |g.completions| && g.servers[g.completions[i].server].inFlight > 0
    ensures WellFormed(CompletionFired(g, i))
  {
    var c := g.completions[i];
    assert CompletionAt(g.topo, c);
    CompleteSends(g.topo, c.server, g.servers[c.server], c.task, c.at);
    ServerKeepsWellFormed(g.(now := c.at, completions := RemoveAt(g.completions, i)), c.server,
                          S.Complete(g.servers[c.server], c.task, c.at));
  }

  lemma InitialPullWellFormed(g: Cluster, i: nat)
    requires WellFormed(g) && i < |g.initialPulls|
    ensures WellFormed(InitialPullFired(g, i))
  {
    var q := g.initialPulls[i];
    RequestPullSends(g.topo, q.server, g.servers[q.server]);
    ServerKeepsWellFormed(g.(now := q.at, initialPulls := RemoveAt(g.initialPulls, i)), q.server,
                          S.RequestPull(g.servers[q.server]));
  }

  lemma TimerWellFormed(g: Cluster, i: nat)
    requires WellFormed(g) && i < |g.timers|
    ensures WellFormed(TimerFired(g, i))
  {
    var e := g.timers[i];
    assert TimerAt(g.topo, e);
    TimerSends(g.topo, e, g.servers[e.server]);
    ServerKeepsWellFormed(g.(now := e.at, timers := RemoveAt(g.timers, i)), e.server,
                          TimerEffects(g.servers[e.server], e));
  }

  /** No step misroutes anything: the wiring discipline holds in every reachable state. */
  lemma NextKeepsWellFormed(g: Cluster, step: Step)
    requires WellFormed(g) && Enabled(g, step)
    ensures WellFormed(Next(g, step))
  {
    match step
    case Arrive(i, pick) => ArrivedWellFormed(g, i, pick);
    case DeliverTask(i) => TaskWellFormed(g, i);
    case DeliverIntent(i) => IntentWellFormed(g, i);
    case DeliverPull(i) => PullWellFormed(g, i);
    case DeliverRelease(i) => ReleaseWellFormed(g, i);
    case DeliverEvicted(i, pick) => EvictedWellFormed(g, i, pick);
    case DeliverShed(i, pick) => ShedWellFormed(g, i, pick);
    case FireCompletion(i) => CompletionWellFormed(g, i);
    case FireInitialPull(i) => InitialPullWellFormed(g, i);
    case FireTimer(i) => TimerWellFormed(g, i);
  }

  lemma EvictionNeedsExpress(g: Cluster)
    requires WellFormed(g) && g.evicted != []
    ensures ExpressLb(g.topo)
  {
    assert Owned(g.topo, g.evicted[0]);
  }

  lemma ShedNeedsShedding(g: Cluster)
    requires WellFormed(g) && g.shed != []
    ensures Sheds(g.topo)
  {
    assert ClientLb(g.topo, g.shed[0].lb);
  }

  lemma IntentsNeedAmphiQueue(p: Topology, s: nat, v: S.ServerState)
    requires s < |p.servers| && ServerAt(p, s, v) && v.intents != []
    ensures v.cfg.mode == S.AmphiQueue
  {
    assert IntentAt(p, s, v.intents[0]);
  }
}
