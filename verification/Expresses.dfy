/** Inflight accounting of the express balancer. It forwards tasks that belong to client balancers, so its count for an
    express server is told by where tasks are, not by who owns them: tasks on their way to the server, tasks running there,
    and the server's own releases on their way back. */
module Expresses {
  import opened Domain
  import opened Sums
  import opened Clusters
  import opened Flows
  import B = Balancers
  import S = Servers
  import Wiring

  function HostedAt(s: nat): S.Completion -> int
  {
    (c: S.Completion) => if c.server == s then 1 else 0
  }

  function ReleaseTo(b: nat, s: nat): ReleaseMsg -> int
  {
    (r: ReleaseMsg) => if r.lb == b && r.server == s then 1 else 0
  }

  ghost predicate Express(g: Cluster, b: nat, s: nat)
  {
    b < |g.balancers| && g.balancers[b].cfg.preserveMetadata && s < |g.balancers[b].localInflight|
  }

  ghost function Held(g: Cluster, b: nat, s: nat): int
  {
    (if Pullable(g.topo, b, s) then Sum(g.tasks, ToServer(s)) + Sum(g.completions, HostedAt(s)) else 0)
    + Sum(g.releases, ReleaseTo(b, s))
  }

  ghost predicate ExactAt(g: Cluster, b: nat, s: nat)
  {
    Express(g, b, s) && g.balancers[b].localInflight[s] == Held(g, b, s)
  }

  ghost predicate Exact(g: Cluster)
  {
    forall b: nat, s: nat :: Express(g, b, s) ==> ExactAt(g, b, s)
  }

  // What balancers send

  /** A balancer sends tasks only to servers of its own kind; a centralized one only to servers that pull from it. */
  ghost predicate SentTo(p: Topology, h: nat, server: nat)
  {
    && h < |p.balancers| && server < |p.servers|
    && match p.balancers[h].cfg.policy
       case AmphiQueue => p.servers[server].mode == S.AmphiQueue
       case Push => p.servers[server].mode == S.Push
       case Centralized => Pullable(p, h, server)
  }

  ghost predicate AllSent(p: Topology, h: nat, tasks: seq<TaskMsg>)
  {
    forall i :: 0 <= i < |tasks| ==> SentTo(p, h, tasks[i].server)
  }

  lemma {:induction false} WaitingSent(p: Topology, h: nat, fx: B.Effects, now: Time)
    requires fx.Valid() && h < |p.balancers| && p.balancers[h].cfg.policy == B.Centralized && AllSent(p, h, fx.out.tasks)
    requires forall i :: 0 <= i < |fx.balancer.waiting| ==> Pullable(p, h, fx.balancer.waiting[i])
    ensures AllSent(p, h, B.DispatchWaiting(fx, now).out.tasks)
    decreases |fx.balancer.waiting|
  {
    var l := fx.balancer;
    if l.waiting != [] && l.queue != [] {
      var popped := fx.(balancer := l.(waiting := l.waiting[1..]));
      assert Pullable(p, h, l.waiting[0]);
      WaitingSent(p, h, B.DispatchHead(popped, l.waiting[0], now), now);
    }
  }

  lemma InputSent(p: Topology, h: nat, l: B.Balancer, task: Task, now: Time, pick: nat)
    requires Wired(p) && h < |p.balancers| && BalancerAt(p, h, l) && pick < |l.cfg.serverIndices|
    ensures AllSent(p, h, B.Input(l, task, now, pick).out.tasks)
  {
    assert BalancerWired(p, h);
    if l.cfg.policy == B.Centralized {
      WaitingSent(p, h, B.Start(B.Enqueued(l, task, now)), now);
    }
  }

  lemma PullSent(p: Topology, h: nat, l: B.Balancer, pull: PullRequest, now: Time)
    requires h < |p.balancers| && BalancerAt(p, h, l) && PullAt(p, PullMsg(h, pull))
    ensures B.Pull(l, pull, now).Fulfilled? ==> AllSent(p, h, B.Pull(l, pull, now).effects.out.tasks)
  {
  }

  /** What another balancer sends does not go to an express server, and nothing else is sent by the express balancer. */
  lemma BalancerExact(g: Cluster, h: nat, fx: B.Effects, b: nat, s: nat)
    requires h < |g.balancers| && ExactAt(g, b, s) && AllSent(g.topo, h, fx.out.tasks)
    requires fx.balancer.cfg == g.balancers[h].cfg && |fx.balancer.localInflight| == |g.balancers[h].localInflight|
    requires b == h ==> Outstanding(fx, s) == g.balancers[h].localInflight[s]
    requires b < |g.topo.balancers| && g.topo.balancers[b].cfg.policy == B.Centralized
    ensures ExactAt(AfterBalancer(g, h, fx), b, s)
  {
    SumConcat(g.tasks, fx.out.tasks, ToServer(s));
    if b != h || !Pullable(g.topo, b, s) {
      forall i | 0 <= i < |fx.out.tasks| && (b == h || Pullable(g.topo, b, s)) ensures ToServer(s)(fx.out.tasks[i]) == 0 {
        assert SentTo(g.topo, h, fx.out.tasks[i].server);
      }
      if b == h || Pullable(g.topo, b, s) {
        SumZero(fx.out.tasks, ToServer(s));
      }
    }
  }

  lemma ExpressCentralized(g: Cluster, b: nat, s: nat)
    requires WellFormed(g) && Express(g, b, s)
    ensures b < |g.topo.balancers| && g.topo.balancers[b].cfg.policy == B.Centralized && b == g.topo.expressLb
  {
    assert BalancerAt(g.topo, b, g.balancers[b]) && BalancerWired(g.topo, b);
  }

  lemma InputExact(g: Cluster, g0: Cluster, h: nat, task: Task, now: Time, pick: nat, b: nat, s: nat)
    requires WellFormed(g) && CanPick(g, h, pick) && ExactAt(g0, b, s) && g0.balancers == g.balancers && g0.topo == g.topo
    ensures ExactAt(AfterBalancer(g0, h, B.Input(g.balancers[h], task, now, pick)), b, s)
  {
    ExpressCentralized(g, b, s);
    InputSent(g.topo, h, g.balancers[h], task, now, pick);
    if b == h {
      InputOutstanding(g.balancers[h], task, now, pick, s);
    }
    BalancerExact(g0, h, B.Input(g.balancers[h], task, now, pick), b, s);
  }

  lemma PulledExact(g: Cluster, i: nat, b: nat, s: nat)
    requires WellFormed(g) && i < |g.pulls| && ExactAt(g, b, s)
    ensures ExactAt(PullDelivered(g, i), b, s)
  {
    var m := g.pulls[i];
    assert PullAt(g.topo, m);
    ExpressCentralized(g, b, s);
    var r := B.Pull(g.balancers[m.lb], m.pull, g.now);
    if r.Fulfilled? {
      PullSent(g.topo, m.lb, g.balancers[m.lb], m.pull, g.now);
      if b == m.lb {
        PullOutstanding(g.balancers[m.lb], m.pull, g.now, s);
      }
      BalancerExact(g.(pulls := RemoveAt(g.pulls, i)), m.lb, r.effects, b, s);
    }
  }

  lemma ReleaseCounted(g: Cluster, i: nat)
    requires i < |g.releases| && ExactAt(g, g.releases[i].lb, g.releases[i].server)
    ensures g.balancers[g.releases[i].lb].localInflight[g.releases[i].server] > 0
  {
    var m := g.releases[i];
    SumNonNegative(g.tasks, ToServer(m.server));
    SumNonNegative(g.completions, HostedAt(m.server));
    SumAtLeast(g.releases, i, ReleaseTo(m.lb, m.server));
  }

  lemma ReleaseExact(g: Cluster, i: nat, b: nat, s: nat)
    requires WellFormed(g) && i < |g.releases| && ExactAt(g, b, s)
    ensures ExactAt(ReleaseDelivered(g, i), b, s)
  {
    var m := g.releases[i];
    assert ReleaseAt(g.topo, m);
    if m.lb == b && m.server == s {
      ReleaseCounted(g, i);
    }
    SumRemove(g.releases, i, ReleaseTo(b, s));
    assert g.tasks + [] == g.tasks;
  }

  // Servers

  /** Releases to client balancers only. */
  ghost predicate ToClients(p: Topology, releases: seq<ReleaseMsg>)
  {
    forall i :: 0 <= i < |releases| ==> ClientLb(p, releases[i].lb)
  }

  /** A server handler that begins as many services as it takes tasks, where tasks are for the express balancer. */
  lemma ServerExact(g: Cluster, g0: Cluster, v: nat, fx: S.ServerEffects, b: nat, s: nat)
    requires ExactAt(g, b, s) && v < |g0.servers| && g0.balancers == g.balancers && g0.topo == g.topo
    requires var released := Sum(fx.out.releases, ReleaseTo(b, s));
             && Sum(g0.releases, ReleaseTo(b, s)) == Sum(g.releases, ReleaseTo(b, s))
             && (if Pullable(g.topo, b, s) then
                   Sum(g0.tasks, ToServer(s)) + Sum(g0.completions, HostedAt(s)) + Sum(fx.out.completions, HostedAt(s)) + released
                     == Sum(g.tasks, ToServer(s)) + Sum(g.completions, HostedAt(s))
                 else released == 0)
    ensures ExactAt(AfterServer(g0, v, fx), b, s)
  {
    SumConcat(g0.completions, fx.out.completions, HostedAt(s));
    SumConcat(g0.releases, fx.out.releases, ReleaseTo(b, s));
  }

  lemma ClientReleases(p: Topology, releases: seq<ReleaseMsg>, b: nat, s: nat)
    requires ToClients(p, releases) && b < |p.balancers| && p.balancers[b].cfg.preserveMetadata
    ensures Sum(releases, ReleaseTo(b, s)) == 0
  {
    SumZero(releases, ReleaseTo(b, s));
  }

  ghost predicate OnlyAt(completions: seq<S.Completion>, v: nat)
  {
    forall i :: 0 <= i < |completions| ==> completions[i].server == v
  }

  lemma {:induction false} DrainOnlyAt(fx: S.ServerEffects, now: Time)
    requires OnlyAt(fx.out.completions, fx.server.cfg.index)
    ensures var r := S.DrainQueue(fx, now); OnlyAt(r.out.completions, fx.server.cfg.index) && r.out.releases == fx.out.releases
    decreases |fx.server.queue|
  {
    var v := fx.server;
    if v.inFlight < v.cfg.maxConcurrency && v.queue != [] {
      DrainOnlyAt(S.BeginService(S.TakeHead(fx, now), v.queue[0], now), now);
    }
  }

  lemma EvictionOnlyAt(fx: S.ServerEffects, start: Time, now: Time)
    requires fx.server.queue != []
    ensures var r := S.ApplyEviction(fx, start, now);
            r.out.completions == fx.out.completions && r.out.releases == fx.out.releases && r.server.cfg == fx.server.cfg
            && (fx.server.cfg.eviction.None? ==> r == fx)
  {
  }

  /** A server that pulls starts each task it gets; no server releases anything for the express balancer when a task comes. */
  lemma InputExpress(p: Topology, v: S.ServerState, task: Task, now: Time)
    requires v.Valid() && ClientLb(p, task.lbId)
    ensures var fx := S.Input(v, task, now);
            && ToClients(p, fx.out.releases) && OnlyAt(fx.out.completions, v.cfg.index)
            && (v.cfg.mode == S.Centralized ==> |fx.out.completions| == 1)
  {
    if v.cfg.mode == S.Push && v.inFlight >= v.cfg.maxConcurrency {
      EvictionOnlyAt(S.Begin(S.SampleLevel(v.(queue := v.queue + [task]), now)), task.start, now);
    }
  }

  lemma CountOnlyAt(completions: seq<S.Completion>, v: nat, s: nat)
    requires OnlyAt(completions, v)
    ensures Sum(completions, HostedAt(s)) == if s == v then |completions| else 0
  {
    SumConstant(completions, HostedAt(s), if s == v then 1 else 0);
  }

  lemma TaskExact(g: Cluster, i: nat, b: nat, s: nat)
    requires WellFormed(g) && i < |g.tasks| && ExactAt(g, b, s)
    ensures ExactAt(TaskDelivered(g, i), b, s)
  {
    var m := g.tasks[i];
    var v := g.servers[m.server];
    assert TaskAt(g.topo, m.server, m.task) && ServerWired(g.topo, m.server);
    ExpressCentralized(g, b, s);
    InputExpress(g.topo, v, m.task, g.now);
    var fx := S.Input(v, m.task, g.now);
    SumRemove(g.tasks, i, ToServer(s));
    CountOnlyAt(fx.out.completions, m.server, s);
    ClientReleases(g.topo, fx.out.releases, b, s);
    ServerExact(g, g.(tasks := RemoveAt(g.tasks, i)), m.server, fx, b, s);
  }

  lemma EndedReleases(p: Topology, v: S.ServerState, task: Task, now: Time, b: nat, s: nat)
    requires v.inFlight > 0 && Wired(p) && TaskAt(p, v.cfg.index, task) && v.cfg == p.servers[v.cfg.index]
    requires b < |p.balancers| && p.balancers[b].cfg.preserveMetadata && b == p.expressLb
    ensures var fx := S.Complete(v, task, now);
            && OnlyAt(fx.out.completions, v.cfg.index)
            && (v.cfg.mode == S.Centralized ==> fx.out.completions == [])
            && Sum(fx.out.releases, ReleaseTo(b, s)) == if v.cfg.isExpress && s == v.cfg.index then 1 else 0
  {
    assert ServerWired(p, v.cfg.index);
    var ended := S.Ended(v, task, now);
    if v.cfg.mode == S.Push {
      DrainOnlyAt(ended, now);
    }
    var r := ReleaseTo(b, s);
    assert S.Complete(v, task, now).out.releases == S.ReleasesOf(v, task);
    if v.cfg.isExpress {
      var first, second := ReleaseMsg(v.cfg.homeLb, v.cfg.index), ReleaseMsg(task.lbId, task.originServer);
      assert [first, second] == [first] + [second];
      SumAppend([first], second, r);
      SumOne(first, r);
    } else {
      SumOne(ReleaseMsg(task.lbId, v.cfg.index), r);
    }
  }

  lemma CompletionExact(g: Cluster, i: nat, b: nat, s: nat)
    requires WellFormed(g) && i < |g.completions| && g.servers[g.completions[i].server].inFlight > 0 && ExactAt(g, b, s)
    ensures ExactAt(CompletionFired(g, i), b, s)
  {
    var c := g.completions[i];
    var v := g.servers[c.server];
    assert CompletionAt(g.topo, c) && ServerWired(g.topo, c.server);
    ExpressCentralized(g, b, s);
    var fx := S.Complete(v, c.task, c.at);
    EndedReleases(g.topo, v, c.task, c.at, b, s);
    SumRemove(g.completions, i, HostedAt(s));
    CountOnlyAt(fx.out.completions, c.server, s);
    ServerExact(g, g.(now := c.at, completions := RemoveAt(g.completions, i)), c.server, fx, b, s);
  }

  lemma TimerExact(g: Cluster, i: nat, b: nat, s: nat)
    requires WellFormed(g) && i < |g.timers| && ExactAt(g, b, s)
    ensures ExactAt(TimerFired(g, i), b, s)
  {
    var e := g.timers[i];
    var v := g.servers[e.server];
    assert TimerAt(g.topo, e);
    ExpressCentralized(g, b, s);
    var fx := TimerEffects(v, e);
    var j := S.TaskPosition(v.queue, e.start);
    assert j < |v.queue| ==> TaskAt(g.topo, e.server, v.queue[j]);
    ClientReleases(g.topo, fx.out.releases, b, s);
    ServerExact(g, g.(now := e.at, timers := RemoveAt(g.timers, i)), e.server, fx, b, s);
  }

  lemma IntentExact(g: Cluster, i: nat, b: nat, s: nat)
    requires WellFormed(g) && i < |g.intents| && ExactAt(g, b, s)
    ensures ExactAt(IntentDelivered(g, i), b, s)
  {
    var m := g.intents[i];
    assert IntentAt(g.topo, m.server, m.intent);
    ServerExact(g, g.(intents := RemoveAt(g.intents, i)), m.server, S.ReceiveIntent(g.servers[m.server], m.intent), b, s);
  }

  lemma InitialPullExact(g: Cluster, i: nat, b: nat, s: nat)
    requires WellFormed(g) && i < |g.initialPulls| && ExactAt(g, b, s)
    ensures ExactAt(InitialPullFired(g, i), b, s)
  {
    var q := g.initialPulls[i];
    ServerExact(g, g.(now := q.at, initialPulls := RemoveAt(g.initialPulls, i)), q.server, S.RequestPull(g.servers[q.server]), b, s);
  }

  lemma NextExactAt(g: Cluster, step: Step, b: nat, s: nat)
    requires WellFormed(g) && Enabled(g, step) && ExactAt(g, b, s)
    ensures ExactAt(Next(g, step), b, s)
  {
    match step
    case Arrive(i, pick) =>
      var a := g.arrivals[i];
      InputExact(g, g.(now := a.at, arrivals := RemoveAt(g.arrivals, i)), a.lb, a.task, a.at, pick, b, s);
    case DeliverTask(i) => TaskExact(g, i, b, s);
    case DeliverIntent(i) => IntentExact(g, i, b, s);
    case DeliverPull(i) => PulledExact(g, i, b, s);
    case DeliverRelease(i) => ReleaseExact(g, i, b, s);
    case DeliverEvicted(i, pick) =>
      InputExact(g, g.(evicted := RemoveAt(g.evicted, i)), g.topo.expressLb, g.evicted[i], g.now, pick, b, s);
    case DeliverShed(i, pick) =>
      InputExact(g, g.(shed := RemoveAt(g.shed, i)), g.shed[i].lb, g.shed[i].task, g.now, pick, b, s);
    case FireCompletion(i) => CompletionExact(g, i, b, s);
    case FireInitialPull(i) => InitialPullExact(g, i, b, s);
    case FireTimer(i) => TimerExact(g, i, b, s);
  }

  /** The express balancer's counts stay exact through every handler. */
  lemma NextKeepsExact(g: Cluster, step: Step)
    requires WellFormed(g) && Enabled(g, step) && Exact(g)
    ensures Exact(Next(g, step))
  {
    Wiring.NextKeepsWellFormed(g, step);
    forall b: nat, s: nat | Express(Next(g, step), b, s) ensures ExactAt(Next(g, step), b, s) {
      assert g.balancers[b].cfg == g.topo.balancers[b].cfg;
      assert Express(g, b, s);
      NextExactAt(g, step, b, s);
    }
  }

  lemma InitialExact(g: Cluster)
    requires Initial(g)
    ensures Exact(g)
  {
    forall b: nat, s: nat | Express(g, b, s) ensures ExactAt(g, b, s) {
      assert FreshBalancer(g.balancers[b]);
    }
  }
}
