/** Termination and deadlock freedom: every handler makes progress, some handler can run until nothing is left
    to do, and then every queue is empty. */
module Progress {
  import opened Domain
  import opened Sums
  import opened Clusters
  import B = Balancers
  import S = Servers
  import Accounting
  import Expresses
  import Claims
  import Disciplines
  import Slots
  import Timing
  import Wiring

  /** No push balancer can choose a server that sheds. */
  ghost predicate NoShedding(p: Topology)
  {
    forall b, i :: 0 <= b < |p.balancers| && 0 <= i < |p.balancers[b].cfg.serverIndices| ==> !SheddingChoice(p, b, i)
  }

  /** Position `i` in the list of push balancer `b` is a server that sheds. */
  ghost predicate SheddingChoice(p: Topology, b: nat, i: nat)
  {
    && b < |p.balancers| && i < |p.balancers[b].cfg.serverIndices| && p.balancers[b].cfg.policy == B.Push
    && p.balancers[b].cfg.serverIndices[i] < |p.servers| && p.servers[p.balancers[b].cfg.serverIndices[i]].shedding.Some?
  }

  /** A task that comes to the server is never shed there. */
  ghost predicate Safe(p: Topology, s: nat)
  {
    s < |p.servers| && (p.servers[s].mode == S.Push ==> p.servers[s].shedding.None?)
  }

  ghost predicate AllSafe(p: Topology, tasks: seq<TaskMsg>)
  {
    forall i :: 0 <= i < |tasks| ==> Safe(p, tasks[i].server)
  }

  ghost predicate Evictions(timers: seq<S.TimerEvent>)
  {
    forall i :: 0 <= i < |timers| ==> timers[i].kind == S.Evict
  }

  /** Nothing is shed, or going to be. */
  ghost predicate Unshed(g: Cluster)
  {
    g.shed == [] && AllSafe(g.topo, g.tasks) && Evictions(g.timers)
  }

  lemma SentSafe(p: Topology, h: nat, tasks: seq<TaskMsg>)
    requires Expresses.AllSent(p, h, tasks) && h < |p.balancers| && p.balancers[h].cfg.policy != B.Push
    ensures AllSafe(p, tasks)
  {
    forall i | 0 <= i < |tasks| ensures Safe(p, tasks[i].server) {
      assert Expresses.SentTo(p, h, tasks[i].server);
    }
  }

  lemma InputSafe(p: Topology, h: nat, l: B.Balancer, task: Task, now: Time, pick: nat)
    requires Wired(p) && NoShedding(p) && h < |p.balancers| && BalancerAt(p, h, l) && pick < |l.cfg.serverIndices|
    ensures AllSafe(p, B.Input(l, task, now, pick).out.tasks)
  {
    assert BalancerWired(p, h);
    if l.cfg.policy == B.Push {
      assert !SheddingChoice(p, h, pick);
    } else {
      Expresses.InputSent(p, h, l, task, now, pick);
      SentSafe(p, h, B.Input(l, task, now, pick).out.tasks);
    }
  }

  lemma BalancerUnshed(g: Cluster, g0: Cluster, h: nat, fx: B.Effects)
    requires Unshed(g) && h < |g0.balancers| && g0.topo == g.topo && AllSafe(g.topo, fx.out.tasks)
    requires g0.tasks == g.tasks && g0.shed == g.shed && g0.timers == g.timers
    ensures Unshed(AfterBalancer(g0, h, fx))
  {
  }

  lemma ServerUnshed(g: Cluster, g0: Cluster, s: nat, fx: S.ServerEffects)
    requires Unshed(g) && s < |g0.servers| && g0.topo == g.topo && fx.out.shed == [] && Evictions(fx.out.scheduled)
    requires g0.shed == g.shed && (forall m :: m in g0.tasks ==> m in g.tasks) && (forall e :: e in g0.timers ==> e in g.timers)
    ensures Unshed(AfterServer(g0, s, fx))
  {
    var h := AfterServer(g0, s, fx);
    forall i | 0 <= i < |h.tasks| ensures Safe(h.topo, h.tasks[i].server) {
      assert h.tasks[i] in g.tasks;
    }
    forall i | 0 <= i < |h.timers| ensures h.timers[i].kind == S.Evict {
      var kept := CancelAll(g0.timers, fx.out.cancelled);
      if i < |kept| {
        assert kept[i] in g0.timers;
      }
    }
  }

  lemma EvictionUnshed(fx: S.ServerEffects, start: Time, now: Time)
    requires fx.server.queue != [] && Evictions(fx.out.scheduled)
    ensures var r := S.ApplyEviction(fx, start, now);
            r.out.shed == fx.out.shed && Evictions(r.out.scheduled) && r.server.cfg == fx.server.cfg
  {
  }

  lemma InputUnshed(v: S.ServerState, task: Task, now: Time)
    requires v.Valid() && (v.cfg.mode == S.Push ==> v.cfg.shedding.None?)
    ensures var r := S.Input(v, task, now); r.out.shed == [] && Evictions(r.out.scheduled)
  {
    if v.cfg.mode == S.Push && v.inFlight >= v.cfg.maxConcurrency {
      EvictionUnshed(S.Begin(S.SampleLevel(v.(queue := v.queue + [task]), now)), task.start, now);
    }
  }

  lemma {:induction false} DrainUnshed(fx: S.ServerEffects, now: Time)
    ensures var r := S.DrainQueue(fx, now); r.out.shed == fx.out.shed && r.out.scheduled == fx.out.scheduled
    decreases |fx.server.queue|
  {
    var v := fx.server;
    if v.inFlight < v.cfg.maxConcurrency && v.queue != [] {
      DrainUnshed(S.BeginService(S.TakeHead(fx, now), v.queue[0], now), now);
    }
  }

  lemma CompleteUnshed(v: S.ServerState, task: Task, now: Time)
    requires v.inFlight > 0
    ensures var r := S.Complete(v, task, now); r.out.shed == [] && r.out.scheduled == []
  {
    if v.cfg.mode == S.Push {
      DrainUnshed(S.Ended(v, task, now), now);
    }
  }

  lemma ServerNextUnshed(g: Cluster, step: Step)
    requires WellFormed(g) && Enabled(g, step) && Unshed(g)
    requires step.DeliverTask? || step.DeliverIntent? || step.FireCompletion? || step.FireInitialPull? || step.FireTimer?
    ensures Unshed(Next(g, step))
  {
    match step
    case DeliverTask(i) =>
      var m := g.tasks[i];
      assert TaskAt(g.topo, m.server, m.task) && ServerAt(g.topo, m.server, g.servers[m.server]) && Safe(g.topo, m.server);
      InputUnshed(g.servers[m.server], m.task, g.now);
      ServerUnshed(g, g.(tasks := RemoveAt(g.tasks, i)), m.server, S.Input(g.servers[m.server], m.task, g.now));
    case DeliverIntent(i) =>
      assert IntentAt(g.topo, g.intents[i].server, g.intents[i].intent);
      ServerUnshed(g, g.(intents := RemoveAt(g.intents, i)), g.intents[i].server,
                   S.ReceiveIntent(g.servers[g.intents[i].server], g.intents[i].intent));
    case FireCompletion(i) =>
      var c := g.completions[i];
      assert CompletionAt(g.topo, c);
      CompleteUnshed(g.servers[c.server], c.task, c.at);
      ServerUnshed(g, g.(now := c.at, completions := RemoveAt(g.completions, i)), c.server,
                   S.Complete(g.servers[c.server], c.task, c.at));
    case FireInitialPull(i) =>
      var q := g.initialPulls[i];
      ServerUnshed(g, g.(now := q.at, initialPulls := RemoveAt(g.initialPulls, i)), q.server, S.RequestPull(g.servers[q.server]));
    case FireTimer(i) =>
      var e := g.timers[i];
      assert TimerAt(g.topo, e);
      ServerUnshed(g, g.(now := e.at, timers := RemoveAt(g.timers, i)), e.server, TimerEffects(g.servers[e.server], e));
  }

  /** Where no push balancer can choose a server that sheds, nothing is ever shed. */
  lemma NextUnshed(g: Cluster, step: Step)
    requires WellFormed(g) && NoShedding(g.topo) && Enabled(g, step) && Unshed(g)
    ensures Unshed(Next(g, step))
  {
    match step
    case Arrive(i, pick) =>
      var a := g.arrivals[i];
      InputSafe(g.topo, a.lb, g.balancers[a.lb], a.task, a.at, pick);
      BalancerUnshed(g, g.(now := a.at, arrivals := RemoveAt(g.arrivals, i)), a.lb, B.Input(g.balancers[a.lb], a.task, a.at, pick));
    case DeliverEvicted(i, pick) =>
      var b := g.topo.expressLb;
      InputSafe(g.topo, b, g.balancers[b], g.evicted[i], g.now, pick);
      BalancerUnshed(g, g.(evicted := RemoveAt(g.evicted, i)), b, B.Input(g.balancers[b], g.evicted[i], g.now, pick));
    case DeliverPull(i) => PullUnshed(g, i);
    case DeliverRelease(i) =>
      assert ReleaseAt(g.topo, g.releases[i]);
      BalancerUnshed(g, g.(releases := RemoveAt(g.releases, i)), g.releases[i].lb,
                     B.Start(B.Release(g.balancers[g.releases[i].lb], g.releases[i].server)));
    case DeliverShed(_, _) => assert false;
    case _ => ServerNextUnshed(g, step);
  }

  lemma PullUnshed(g: Cluster, i: nat)
    requires WellFormed(g) && Unshed(g) && i < |g.pulls|
    ensures Unshed(PullDelivered(g, i))
  {
    var m := g.pulls[i];
    assert PullAt(g.topo, m);
    var r := B.Pull(g.balancers[m.lb], m.pull, g.now);
    if r.Fulfilled? {
      Expresses.PullSent(g.topo, m.lb, g.balancers[m.lb], m.pull, g.now);
      SentSafe(g.topo, m.lb, r.effects.out.tasks);
      BalancerUnshed(g, g.(pulls := RemoveAt(g.pulls, i)), m.lb, r.effects);
    }
  }

  // Every request, message and event is weighed by the stages it still has to go through.

  function Transit(p: Topology): TaskMsg -> int
  {
    (m: TaskMsg) => if m.server < |p.servers| && p.servers[m.server].mode == S.Push then 10 else 5
  }

  function AtLb(): B.Balancer -> int
  {
    (l: B.Balancer) => 6 * |l.queue|
  }

  function AtHost(): S.ServerState -> int
  {
    (v: S.ServerState) => 8 * |v.queue| + 2 * |v.intents|
  }

  ghost function Remaining(g: Cluster): int
  {
    11 * |g.arrivals| + 2 * |g.initialPulls| + 4 * |g.completions| + |g.timers|
    + Sum(g.tasks, Transit(g.topo)) + 3 * |g.intents| + |g.pulls| + |g.releases| + 7 * |g.evicted| + 11 * |g.shed|
    + Sum(g.balancers, AtLb()) + Sum(g.servers, AtHost()) + if g.aborted then 0 else 1
  }

  // Balancers

  ghost function BalancerWeight(p: Topology, fx: B.Effects): int
  {
    6 * |fx.balancer.queue| + Sum(fx.out.tasks, Transit(p)) + 3 * |fx.out.intents|
  }

  lemma RemainingAfterBalancer(g: Cluster, b: nat, fx: B.Effects)
    requires b < |g.balancers|
    ensures Remaining(AfterBalancer(g, b, fx))
         == Remaining(g) - 6 * |g.balancers[b].queue| + BalancerWeight(g.topo, fx)
  {
    SumUpdate(g.balancers, b, fx.balancer, AtLb());
    SumConcat(g.tasks, fx.out.tasks, Transit(g.topo));
  }

  lemma HeadWeight(p: Topology, fx: B.Effects, server: nat, now: Time)
    requires fx.Valid() && server < |fx.balancer.localInflight| && fx.balancer.queue != []
    requires server < |p.servers| && p.servers[server].mode != S.Push
    ensures BalancerWeight(p, B.DispatchHead(fx, server, now)) == BalancerWeight(p, fx) - 1
  {
    var l := B.Dequeued(fx.balancer, 0, now);
    SumAppend(fx.out.tasks, TaskMsg(server, B.Stamped(l, server, fx.balancer.queue[0], now)), Transit(p));
  }

  lemma {:induction false} WaitingWeight(p: Topology, b: nat, fx: B.Effects, now: Time)
    requires fx.Valid()
    requires forall i :: 0 <= i < |fx.balancer.waiting| ==> Pullable(p, b, fx.balancer.waiting[i])
    ensures BalancerWeight(p, B.DispatchWaiting(fx, now)) <= BalancerWeight(p, fx)
    decreases |fx.balancer.waiting|
  {
    var l := fx.balancer;
    if l.waiting != [] && l.queue != [] {
      var popped := fx.(balancer := l.(waiting := l.waiting[1..]));
      assert Pullable(p, b, l.waiting[0]);
      HeadWeight(p, popped, l.waiting[0], now);
      assert forall i :: 0 <= i < |popped.balancer.waiting| ==> popped.balancer.waiting[i] == l.waiting[i + 1];
      WaitingWeight(p, b, B.DispatchHead(popped, l.waiting[0], now), now);
    }
  }

  lemma InputWeight(p: Topology, b: nat, l: B.Balancer, task: Task, now: Time, pick: nat)
    requires Wired(p) && b < |p.balancers| && BalancerAt(p, b, l) && pick < |l.cfg.serverIndices|
    ensures BalancerWeight(p, B.Input(l, task, now, pick))
         <= 6 * |l.queue| + if l.cfg.policy == B.Centralized then 6 else 10
  {
    assert BalancerWired(p, b);
    match l.cfg.policy
    case Centralized => WaitingWeight(p, b, B.Start(B.Enqueued(l, task, now)), now);
    case AmphiQueue =>
    case Push =>
      var sent := TaskMsg(l.cfg.serverIndices[pick], B.Stamped(l, l.cfg.serverIndices[pick], task, now));
      assert B.Input(l, task, now, pick).out.tasks == [sent];
      SumOne(sent, Transit(p));
  }

  lemma PullWeight(p: Topology, b: nat, l: B.Balancer, pull: PullRequest, now: Time)
    requires Wired(p) && b < |p.balancers| && BalancerAt(p, b, l) && PullAt(p, PullMsg(b, pull))
    ensures B.Pull(l, pull, now).Fulfilled? ==> BalancerWeight(p, B.Pull(l, pull, now).effects) <= 6 * |l.queue|
  {
    if l.cfg.policy == B.AmphiQueue {
      var i := B.PullIndex(l, pull);
      if i < |l.queue| {
        var sent := TaskMsg(pull.serverIdx, B.Stamped(l, pull.serverIdx, l.queue[i], now));
        assert B.Fulfil(l, pull, i, now).out.tasks == [sent];
        SumOne(sent, Transit(p));
      }
    } else if l.queue != [] {
      HeadWeight(p, B.Start(l), pull.serverIdx, now);
    }
  }

  lemma InputShrinks(g: Cluster, g0: Cluster, b: nat, task: Task, now: Time, pick: nat, w: int)
    requires WellFormed(g) && CanPick(g, b, pick) && g0.balancers == g.balancers && g0.topo == g.topo
    requires Remaining(g0) <= Remaining(g) - w
    requires w > (if g.balancers[b].cfg.policy == B.Centralized then 6 else 10)
    ensures Remaining(AfterBalancer(g0, b, B.Input(g.balancers[b], task, now, pick))) < Remaining(g)
  {
    InputWeight(g.topo, b, g.balancers[b], task, now, pick);
    RemainingAfterBalancer(g0, b, B.Input(g.balancers[b], task, now, pick));
  }

  lemma PullShrinks(g: Cluster, i: nat)
    requires WellFormed(g) && !g.aborted && i < |g.pulls|
    ensures Remaining(PullDelivered(g, i)) < Remaining(g)
  {
    var m := g.pulls[i];
    assert PullAt(g.topo, m);
    PullWeight(g.topo, m.lb, g.balancers[m.lb], m.pull, g.now);
    var r := B.Pull(g.balancers[m.lb], m.pull, g.now);
    if r.Fulfilled? {
      RemainingAfterBalancer(g.(pulls := RemoveAt(g.pulls, i)), m.lb, r.effects);
    }
  }

  lemma ReleaseShrinks(g: Cluster, i: nat)
    requires WellFormed(g) && i < |g.releases|
    ensures Remaining(ReleaseDelivered(g, i)) < Remaining(g)
  {
    var m := g.releases[i];
    assert ReleaseAt(g.topo, m);
    RemainingAfterBalancer(g.(releases := RemoveAt(g.releases, i)), m.lb,
                           B.Start(B.Release(g.balancers[m.lb], m.server)));
  }

  // Servers

  /** What a handler leaves to be done, where a shed task may add four. */
  ghost function ServerWeight(fx: S.ServerEffects): int
  {
    8 * |fx.server.queue| + 2 * |fx.server.intents| + 4 * |fx.out.completions| + |fx.out.scheduled|
    + |fx.out.pulls| + |fx.out.releases| + 7 * |fx.out.evicted| + 7 * |fx.out.shed|
  }

  /** The tasks that a step from `g` to `h` sheds. */
  ghost function ShedBy(g: Cluster, step: Step, h: Cluster): int
  {
    |h.shed| - |g.shed| + if step.DeliverShed? then 1 else 0
  }

  lemma RemainingAfterServer(g: Cluster, s: nat, fx: S.ServerEffects)
    requires s < |g.servers|
    ensures Remaining(AfterServer(g, s, fx)) <= Remaining(g) - AtHost()(g.servers[s]) + ServerWeight(fx) + 4 * |fx.out.shed|
  {
    SumUpdate(g.servers, s, fx.server, AtHost());
  }

  lemma {:induction false} DrainWeight(fx: S.ServerEffects, now: Time)
    ensures ServerWeight(S.DrainQueue(fx, now)) <= ServerWeight(fx)
    decreases |fx.server.queue|
  {
    var v := fx.server;
    if v.inFlight < v.cfg.maxConcurrency && v.queue != [] {
      DrainWeight(S.BeginService(S.TakeHead(fx, now), v.queue[0], now), now);
    }
  }

  lemma EvictionWeight(fx: S.ServerEffects, start: Time, now: Time)
    requires fx.server.queue != []
    ensures ServerWeight(S.ApplyEviction(fx, start, now)) <= ServerWeight(fx) + 1
    ensures S.ApplyEviction(fx, start, now).server.cfg == fx.server.cfg
    ensures fx.server.cfg.eviction.None? ==> S.ApplyEviction(fx, start, now) == fx
  {
  }

  lemma SheddingWeight(fx: S.ServerEffects, start: Time, now: Time)
    requires fx.server.cfg.shedding.Some? ==> fx.server.queue != []
    ensures ServerWeight(S.ApplyShedding(fx, start, now)) <= ServerWeight(fx) + 1
    ensures fx.server.cfg.shedding.None? ==> S.ApplyShedding(fx, start, now) == fx
  {
  }

  lemma ServerInputWeight(v: S.ServerState, task: Task, now: Time)
    requires v.Valid()
    ensures ServerWeight(S.Input(v, task, now)) <= AtHost()(v) + if v.cfg.mode == S.Push then 9 else 4
  {
    if v.cfg.mode == S.Push && v.inFlight >= v.cfg.maxConcurrency {
      var queued := S.Begin(S.SampleLevel(v.(queue := v.queue + [task]), now));
      EvictionWeight(queued, task.start, now);
      SheddingWeight(S.ApplyEviction(queued, task.start, now), task.start, now);
    }
  }

  lemma CompleteWeight(v: S.ServerState, task: Task, now: Time)
    requires v.inFlight > 0 && (v.cfg.isExpress ==> v.cfg.mode == S.Centralized)
    ensures ServerWeight(S.Complete(v, task, now)) <= AtHost()(v) + 3
  {
    if v.cfg.mode == S.Push {
      DrainWeight(S.Ended(v, task, now), now);
    }
  }

  lemma ServerShrinks(g: Cluster, g0: Cluster, s: nat, fx: S.ServerEffects, w: int)
    requires s < |g0.servers| && g0.servers == g.servers && Remaining(g0) <= Remaining(g) - w
    requires ServerWeight(fx) < AtHost()(g.servers[s]) + w
    ensures Remaining(AfterServer(g0, s, fx)) < Remaining(g) + 4 * |fx.out.shed|
  {
    RemainingAfterServer(g0, s, fx);
  }

  lemma TaskShrinks(g: Cluster, i: nat)
    requires WellFormed(g) && i < |g.tasks|
    ensures Remaining(TaskDelivered(g, i)) < Remaining(g) + 4 * (|TaskDelivered(g, i).shed| - |g.shed|)
  {
    var m := g.tasks[i];
    assert TaskAt(g.topo, m.server, m.task) && ServerWired(g.topo, m.server);
    SumRemove(g.tasks, i, Transit(g.topo));
    ServerInputWeight(g.servers[m.server], m.task, g.now);
    ServerShrinks(g, g.(tasks := RemoveAt(g.tasks, i)), m.server, S.Input(g.servers[m.server], m.task, g.now),
                  Transit(g.topo)(m));
  }

  lemma IntentShrinks(g: Cluster, i: nat)
    requires WellFormed(g) && i < |g.intents|
    ensures Remaining(IntentDelivered(g, i)) < Remaining(g) + 4 * (|IntentDelivered(g, i).shed| - |g.shed|)
  {
    var m := g.intents[i];
    assert IntentAt(g.topo, m.server, m.intent);
    ServerShrinks(g, g.(intents := RemoveAt(g.intents, i)), m.server,
                  S.ReceiveIntent(g.servers[m.server], m.intent), 3);
  }

  lemma CompletionShrinks(g: Cluster, i: nat)
    requires WellFormed(g) && i < |g.completions| && g.servers[g.completions[i].server].inFlight > 0
    ensures Remaining(CompletionFired(g, i)) < Remaining(g) + 4 * (|CompletionFired(g, i).shed| - |g.shed|)
  {
    var c := g.completions[i];
    assert CompletionAt(g.topo, c) && ServerWired(g.topo, c.server);
    CompleteWeight(g.servers[c.server], c.task, c.at);
    ServerShrinks(g, g.(now := c.at, completions := RemoveAt(g.completions, i)), c.server,
                  S.Complete(g.servers[c.server], c.task, c.at), 4);
  }

  lemma InitialPullShrinks(g: Cluster, i: nat)
    requires WellFormed(g) && i < |g.initialPulls|
    ensures Remaining(InitialPullFired(g, i)) < Remaining(g) + 4 * (|InitialPullFired(g, i).shed| - |g.shed|)
  {
    var q := g.initialPulls[i];
    ServerShrinks(g, g.(now := q.at, initialPulls := RemoveAt(g.initialPulls, i)), q.server,
                  S.RequestPull(g.servers[q.server]), 2);
  }

  lemma TimerShrinks(g: Cluster, i: nat)
    requires WellFormed(g) && i < |g.timers|
    ensures Remaining(TimerFired(g, i)) < Remaining(g) + 4 * (|TimerFired(g, i).shed| - |g.shed|)
  {
    var e := g.timers[i];
    assert TimerAt(g.topo, e);
    ServerShrinks(g, g.(now := e.at, timers := RemoveAt(g.timers, i)), e.server,
                  TimerEffects(g.servers[e.server], e), 1);
  }

  lemma ServerNextShrinks(g: Cluster, step: Step)
    requires WellFormed(g) && Enabled(g, step)
    requires step.DeliverTask? || step.DeliverIntent? || step.FireCompletion? || step.FireInitialPull? || step.FireTimer?
    ensures Remaining(Next(g, step)) < Remaining(g) + 4 * ShedBy(g, step, Next(g, step))
  {
    match step
    case DeliverTask(i) => TaskShrinks(g, i);
    case DeliverIntent(i) => IntentShrinks(g, i);
    case FireCompletion(i) => CompletionShrinks(g, i);
    case FireInitialPull(i) => InitialPullShrinks(g, i);
    case FireTimer(i) => TimerShrinks(g, i);
  }

  lemma ArrivalShrinks(g: Cluster, i: nat, pick: nat)
    requires WellFormed(g) && i < |g.arrivals| && CanPick(g, g.arrivals[i].lb, pick)
    ensures Remaining(Arrived(g, i, pick)) < Remaining(g)
  {
    var a := g.arrivals[i];
    InputShrinks(g, g.(now := a.at, arrivals := RemoveAt(g.arrivals, i)), a.lb, a.task, a.at, pick, 11);
  }

  lemma EvictedShrinks(g: Cluster, i: nat, pick: nat)
    requires WellFormed(g) && i < |g.evicted| && CanPick(g, g.topo.expressLb, pick)
    ensures Remaining(EvictedDelivered(g, i, pick)) < Remaining(g)
  {
    Wiring.EvictionNeedsExpress(g);
    InputShrinks(g, g.(evicted := RemoveAt(g.evicted, i)), g.topo.expressLb, g.evicted[i], g.now, pick, 7);
  }

  lemma ReturnShrinks(g: Cluster, i: nat, pick: nat)
    requires WellFormed(g) && i < |g.shed| && CanPick(g, g.shed[i].lb, pick)
    ensures Remaining(ShedDelivered(g, i, pick)) < Remaining(g) && |ShedDelivered(g, i, pick).shed| == |g.shed| - 1
  {
    InputShrinks(g, g.(shed := RemoveAt(g.shed, i)), g.shed[i].lb, g.shed[i].task, g.now, pick, 11);
  }

  /** Every step strictly reduces what remains to be done, but for four units for each task that it sheds. */
  lemma NextShrinks(g: Cluster, step: Step)
    requires WellFormed(g) && Enabled(g, step)
    ensures Remaining(Next(g, step)) < Remaining(g) + 4 * ShedBy(g, step, Next(g, step))
  {
    match step
    case Arrive(i, pick) => ArrivalShrinks(g, i, pick);
    case DeliverEvicted(i, pick) => EvictedShrinks(g, i, pick);
    case DeliverShed(i, pick) => ReturnShrinks(g, i, pick);
    case DeliverPull(i) => PullShrinks(g, i);
    case DeliverRelease(i) => ReleaseShrinks(g, i);
    case _ => ServerNextShrinks(g, step);
  }

  lemma InitialRemaining(g: Cluster)
    requires Initial(g)
    ensures Remaining(g) == 11 * |g.arrivals| + 2 * |g.initialPulls| + 1
  {
    forall b | 0 <= b < |g.balancers| ensures AtLb()(g.balancers[b]) == 0 {
      assert FreshBalancer(g.balancers[b]);
    }
    SumZero(g.balancers, AtLb());
    SumZero(g.servers, AtHost());
  }

  // Deadlock freedom

  /** Nothing in transit and nothing scheduled. */
  ghost predicate Over(g: Cluster)
  {
    Quiet(g) && g.arrivals == [] && g.initialPulls == [] && g.completions == [] && g.timers == []
  }

  lemma {:induction false} Least<T>(s: seq<T>, at: T -> int) returns (i: nat)
    requires s != []
    ensures i < |s| && forall j :: 0 <= j < |s| ==> at(s[i]) <= at(s[j])
  {
    if |s| == 1 {
      i := 0;
    } else {
      i := Least(s[..|s| - 1], at);
      if at(s[|s| - 1]) < at(s[i]) {
        i := |s| - 1;
      }
    }
  }

  /** Among the scheduled events there is an earliest one. */
  lemma EarliestEvent(g: Cluster) returns (step: Step)
    requires g.arrivals != [] || g.initialPulls != [] || g.completions != [] || g.timers != []
    ensures match step
            case Arrive(i, pick) => pick == 0 && i < |g.arrivals| && Earliest(g, g.arrivals[i].at)
            case FireInitialPull(i) => i < |g.initialPulls| && Earliest(g, g.initialPulls[i].at)
            case FireCompletion(i) => i < |g.completions| && Earliest(g, g.completions[i].at)
            case FireTimer(i) => i < |g.timers| && Earliest(g, g.timers[i].at)
            case _ => false
  {
    var all := seq(|g.arrivals|, i requires 0 <= i < |g.arrivals| => (g.arrivals[i].at, Arrive(i, 0)))
             + seq(|g.initialPulls|, i requires 0 <= i < |g.initialPulls| => (g.initialPulls[i].at, FireInitialPull(i)))
             + seq(|g.completions|, i requires 0 <= i < |g.completions| => (g.completions[i].at, FireCompletion(i)))
             + seq(|g.timers|, i requires 0 <= i < |g.timers| => (g.timers[i].at, FireTimer(i)));
    var k := Least(all, (e: (int, Step)) => e.0);
    var a, b, c := |g.arrivals|, |g.arrivals| + |g.initialPulls|, |g.arrivals| + |g.initialPulls| + |g.completions|;
    step := all[k].1;
    forall i | 0 <= i < |g.arrivals| ensures all[k].0 <= g.arrivals[i].at { assert all[i].0 == g.arrivals[i].at; }
    forall i | 0 <= i < |g.initialPulls| ensures all[k].0 <= g.initialPulls[i].at {
      assert all[a + i].0 == g.initialPulls[i].at;
    }
    forall i | 0 <= i < |g.completions| ensures all[k].0 <= g.completions[i].at {
      assert all[b + i].0 == g.completions[i].at;
    }
    forall i | 0 <= i < |g.timers| ensures all[k].0 <= g.timers[i].at { assert all[c + i].0 == g.timers[i].at; }
  }

  /** As long as anything is in transit or scheduled, some handler can run. */
  lemma SomethingCanHappen(g: Cluster) returns (step: Step)
    requires WellFormed(g) && Slots.SlotsOk(g) && Timing.Timely(g) && !g.aborted && !Over(g)
    ensures Enabled(g, step)
  {
    if g.tasks != [] {
      step := DeliverTask(0);
    } else if g.intents != [] {
      step := DeliverIntent(0);
    } else if g.pulls != [] {
      step := DeliverPull(0);
    } else if g.releases != [] {
      step := DeliverRelease(0);
    } else if g.evicted != [] {
      Wiring.EvictionNeedsExpress(g);
      assert BalancerWired(g.topo, g.topo.expressLb);
      step := DeliverEvicted(0, 0);
    } else if g.shed != [] {
      assert BalancerWired(g.topo, g.shed[0].lb);
      step := DeliverShed(0, 0);
    } else {
      step := EarliestEvent(g);
      if step.FireCompletion? {
        DueServiceRuns(g, step.i);
      }
      if step.Arrive? {
        assert BalancerWired(g.topo, g.arrivals[step.i].lb);
      }
    }
  }

  lemma DueServiceRuns(g: Cluster, i: nat)
    requires WellFormed(g) && Slots.SlotsOk(g) && i < |g.completions|
    ensures g.servers[g.completions[i].server].inFlight > 0
  {
    assert CompletionAt(g.topo, g.completions[i]);
    var s := g.completions[i].server;
    assert Slots.SlotsAt(g, s);
    SumAtLeast(g.completions, i, Slots.RunningAt(s));
  }

  /** Every model is idle: nothing queued, running, promised or counted as outstanding. */
  ghost predicate Settled(g: Cluster)
  {
    && (forall b :: 0 <= b < |g.balancers| ==> BalancerSettled(g.balancers[b]))
    && (forall s :: 0 <= s < |g.servers| ==> ServerSettled(g.servers[s]))
  }

  ghost predicate BalancerSettled(l: B.Balancer)
  {
    && l.queue == []
    && (forall s :: 0 <= s < |l.localInflight| ==> l.localInflight[s] == 0)
    && (l.cfg.policy == B.AmphiQueue ==> forall s :: 0 <= s < |l.intentLoad| ==> l.intentLoad[s] == 0)
  }

  ghost predicate ServerSettled(v: S.ServerState)
  {
    v.inFlight == 0 && v.queue == [] && v.intents == [] && (v.cfg.mode == S.AmphiQueue ==> v.pendingPulls == 0)
  }

  lemma {:induction false} NotWaiting(p: Topology, b: nat, waiting: seq<nat>, s: nat)
    requires forall i :: 0 <= i < |waiting| ==> Pullable(p, b, waiting[i])
    requires s < |p.servers| && !Pullable(p, b, s)
    ensures Sum(waiting, Slots.Is(s)) == 0
  {
    SumZero(waiting, Slots.Is(s));
  }

  lemma ServerEndsIdle(g: Cluster, s: nat)
    requires WellFormed(g) && Slots.SlotsOk(g) && Over(g) && s < |g.servers|
    ensures ServerSettled(g.servers[s])
  {
    assert Slots.SlotsAt(g, s) && ServerWired(g.topo, s) && ServerAt(g.topo, s, g.servers[s]);
    if g.servers[s].cfg.mode == S.AmphiQueue {
      forall b | 0 <= b < |g.balancers| ensures Slots.WaitingFor(s)(g.balancers[b]) == 0 {
        NotWaiting(g.topo, b, g.balancers[b].waiting, s);
      }
      SumZero(g.balancers, Slots.WaitingFor(s));
    }
    if g.servers[s].cfg.mode != S.AmphiQueue && g.servers[s].intents != [] {
      Wiring.IntentsNeedAmphiQueue(g.topo, s, g.servers[s]);
    }
  }

  /** At the end every slot of a pulling server waits at its home balancer, so nothing is queued there. */
  lemma CentralQueueEmpty(g: Cluster, b: nat)
    requires WellFormed(g) && Slots.SlotsOk(g) && Disciplines.DisciplineOk(g) && Over(g) && b < |g.balancers|
    requires g.balancers[b].cfg.policy == B.Centralized
    ensures g.balancers[b].queue == []
  {
    assert BalancerWired(g.topo, b) && BalancerAt(g.topo, b, g.balancers[b]);
    var s := g.balancers[b].cfg.serverIndices[0];
    assert Pullable(g.topo, b, s) && Slots.SlotsAt(g, s) && ServerWired(g.topo, s);
    var home := SumPositive(g.balancers, Slots.WaitingFor(s));
    if home != b {
      NotWaiting(g.topo, home, g.balancers[home].waiting, s);
      assert false;
    }
    assert Disciplines.Disciplined(g.balancers[b]);
  }

  lemma AmphiQueueEmpty(g: Cluster, b: nat)
    requires WellFormed(g) && Slots.SlotsOk(g) && Claims.ClaimsOk(g) && Over(g) && b < |g.balancers|
    requires g.balancers[b].cfg.policy == B.AmphiQueue
    ensures g.balancers[b].queue == []
    ensures forall s :: 0 <= s < |g.balancers[b].intentLoad| ==> g.balancers[b].intentLoad[s] == 0
  {
    assert Claims.ClaimsAt(g, b);
    forall c: Claims.Claim ensures Claims.Claimed(g, c) == 0 {
      forall s | 0 <= s < |g.servers| ensures Claims.QueuedIntents(c)(g.servers[s]) == 0 {
        ServerEndsIdle(g, s);
      }
      SumZero(g.servers, Claims.QueuedIntents(c));
    }
  }

  lemma NothingHeld(g: Cluster, b: nat, s: nat)
    requires WellFormed(g) && Accounting.Exact(g) && Over(g) && Accounting.Client(g, b, s)
    requires forall t :: 0 <= t < |g.servers| ==> g.servers[t].queue == []
    requires forall h :: 0 <= h < |g.balancers| ==> g.balancers[h].queue == []
    ensures g.balancers[b].localInflight[s] == 0
  {
    assert Accounting.ExactAt(g, b, s);
    var f := Accounting.OwnedBy(b, s);
    SumZero(g.servers, Accounting.QueuedAt(f));
    SumZero(g.balancers, Accounting.QueuedExpress(f));
  }

  /** A run that has nothing left in transit or scheduled has left nothing behind anywhere. */
  lemma EndsSettled(g: Cluster)
    requires WellFormed(g) && Slots.SlotsOk(g) && Claims.ClaimsOk(g) && Disciplines.DisciplineOk(g)
    requires Accounting.Exact(g) && Expresses.Exact(g) && Over(g)
    ensures Settled(g)
  {
    forall s | 0 <= s < |g.servers| ensures ServerSettled(g.servers[s]) {
      ServerEndsIdle(g, s);
    }
    forall b | 0 <= b < |g.balancers| ensures g.balancers[b].queue == [] {
      match g.balancers[b].cfg.policy
      case Centralized => CentralQueueEmpty(g, b);
      case AmphiQueue => AmphiQueueEmpty(g, b);
      case Push => assert Disciplines.Disciplined(g.balancers[b]);
    }
    forall b | 0 <= b < |g.balancers| ensures BalancerSettled(g.balancers[b]) {
      if g.balancers[b].cfg.policy == B.AmphiQueue {
        AmphiQueueEmpty(g, b);
      }
      forall s | 0 <= s < |g.balancers[b].localInflight| ensures g.balancers[b].localInflight[s] == 0 {
        if g.balancers[b].cfg.preserveMetadata {
          assert Expresses.Express(g, b, s) && Expresses.ExactAt(g, b, s);
        } else {
          NothingHeld(g, b, s);
        }
      }
    }
  }
}
