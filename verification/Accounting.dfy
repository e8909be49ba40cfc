/** Exact inflight accounting: in every mode, with eviction to express servers and with shedding, a client
    balancer's count for a server is the number of its tasks sent there that are still in the system, plus
    the releases on their way back. So the saturating subtraction of a release never saturates. */
module Accounting {
  import opened Domain
  import opened Sums
  import opened Clusters
  import opened Flows
  import B = Balancers
  import S = Servers
  import Wiring
  import Expresses

  function OwnedBy(b: nat, s: nat): Measure
  {
    (id: Identity) => if id.lbId == b && id.origin == s then 1 else 0
  }

  function Nothing(): Measure
  {
    (_: Identity) => 0
  }

  function ReleaseTo(b: nat, s: nat): ReleaseMsg -> int
  {
    (r: ReleaseMsg) => if r.lb == b && r.server == s then 1 else 0
  }

  function QueuedAt(f: Measure): S.ServerState -> int
  {
    (v: S.ServerState) => Sum(v.queue, OfTask(f))
  }

  /** Only an express balancer queues tasks that have been dispatched before. */
  function QueuedExpress(f: Measure): B.Balancer -> int
  {
    (l: B.Balancer) => if l.cfg.preserveMetadata then Sum(l.queue, OfTask(f)) else 0
  }

  /** Dispatched tasks still in the system, wherever they are, and releases in transit. Shed tasks on their
      way back are not counted: their release already is. */
  ghost function Held(g: Cluster, f: Measure, r: ReleaseMsg -> int): int
  {
    Sum(g.tasks, OfMsg(f)) + Sum(g.servers, QueuedAt(f)) + Sum(g.completions, OfCompletion(f))
    + Sum(g.evicted, OfTask(f)) + Sum(g.balancers, QueuedExpress(f)) + Sum(g.releases, r)
  }

  ghost predicate Exact(g: Cluster)
  {
    forall b: nat, s: nat :: Client(g, b, s) ==> ExactAt(g, b, s)
  }

  ghost predicate Client(g: Cluster, b: nat, s: nat)
  {
    b < |g.balancers| && !g.balancers[b].cfg.preserveMetadata && s < |g.balancers[b].localInflight|
  }

  ghost predicate ExactAt(g: Cluster, b: nat, s: nat)
  {
    && Client(g, b, s)
    && g.balancers[b].localInflight[s] == Held(g, OwnedBy(b, s), ReleaseTo(b, s))
  }

  lemma HeldAfterServer(g: Cluster, s: nat, fx: S.ServerEffects, f: Measure, r: ReleaseMsg -> int)
    requires s < |g.servers|
    ensures Held(AfterServer(g, s, fx), f, r)
         == Held(g, f, r) - Sum(g.servers[s].queue, OfTask(f)) + AtServer(fx, f, Nothing(), r)
  {
    SumUpdate(g.servers, s, fx.server, QueuedAt(f));
    SumConcat(g.completions, fx.out.completions, OfCompletion(f));
    SumConcat(g.evicted, fx.out.evicted, OfTask(f));
    SumConcat(g.releases, fx.out.releases, r);
    SumZero(fx.out.shed, OfShed(Nothing()));
  }

  lemma HeldAfterBalancer(g: Cluster, b: nat, fx: B.Effects, f: Measure, r: ReleaseMsg -> int)
    requires b < |g.balancers|
    ensures Held(AfterBalancer(g, b, fx), f, r)
         == Held(g, f, r) + Sum(fx.out.tasks, OfMsg(f))
            - QueuedExpress(f)(g.balancers[b]) + QueuedExpress(f)(fx.balancer)
  {
    SumUpdate(g.balancers, b, fx.balancer, QueuedExpress(f));
    SumConcat(g.tasks, fx.out.tasks, OfMsg(f));
  }

  /** Tasks that a client balancer sends are its own, and a task's origin is where it is sent. */
  ghost predicate Stamps(h: nat, tasks: seq<TaskMsg>)
  {
    forall i :: 0 <= i < |tasks| ==> tasks[i].task.lbId == h && tasks[i].task.originServer == tasks[i].server
  }

  lemma {:induction false} WaitingStamps(fx: B.Effects, now: Time)
    requires fx.Valid() && !fx.balancer.cfg.preserveMetadata && Stamps(fx.balancer.cfg.lbId, fx.out.tasks)
    ensures Stamps(fx.balancer.cfg.lbId, B.DispatchWaiting(fx, now).out.tasks)
    decreases |fx.balancer.waiting|
  {
    var l := fx.balancer;
    if l.waiting != [] && l.queue != [] {
      var popped := fx.(balancer := l.(waiting := l.waiting[1..]));
      WaitingStamps(B.DispatchHead(popped, l.waiting[0], now), now);
    }
  }

  lemma InputStamps(l: B.Balancer, task: Task, now: Time, pick: nat)
    requires l.Valid() && pick < |l.cfg.serverIndices| && !l.cfg.preserveMetadata
    ensures Stamps(l.cfg.lbId, B.Input(l, task, now, pick).out.tasks)
  {
    if l.cfg.policy == B.Centralized {
      WaitingStamps(B.Start(B.Enqueued(l, task, now)), now);
    }
  }

  lemma StampedCount(h: nat, tasks: seq<TaskMsg>, b: nat, s: nat)
    requires Stamps(h, tasks)
    ensures Sum(tasks, OfMsg(OwnedBy(b, s))) == if b == h then Sum(tasks, ToServer(s)) else 0
  {
    var f := OfMsg(OwnedBy(b, s));
    forall i | 0 <= i < |tasks| ensures f(tasks[i]) == if b == h then ToServer(s)(tasks[i]) else 0 {
      assert IdentityOf(tasks[i].task).lbId == h;
    }
    if b == h {
      SumSame(tasks, f, ToServer(s));
    } else {
      SumZero(tasks, f);
    }
  }

  /** A client balancer that handles anything keeps its own count, and every other balancer's, exact. */
  lemma ClientKeepsExact(g: Cluster, h: nat, fx: B.Effects, b: nat, s: nat)
    requires h < |g.balancers| && ExactAt(g, b, s)
    requires fx.balancer.cfg == g.balancers[h].cfg && !fx.balancer.cfg.preserveMetadata && Stamps(h, fx.out.tasks)
    requires |fx.balancer.localInflight| == |g.balancers[h].localInflight|
    requires b == h ==> Outstanding(fx, s) == g.balancers[h].localInflight[s]
    ensures ExactAt(AfterBalancer(g, h, fx), b, s)
  {
    HeldAfterBalancer(g, h, fx, OwnedBy(b, s), ReleaseTo(b, s));
    StampedCount(h, fx.out.tasks, b, s);
  }

  lemma ClientInputExact(g: Cluster, h: nat, task: Task, now: Time, pick: nat, b: nat, s: nat)
    requires h < |g.balancers| && ExactAt(g, b, s)
    requires g.balancers[h].Valid() && CanPick(g, h, pick)
    requires g.balancers[h].cfg.lbId == h && !g.balancers[h].cfg.preserveMetadata
    ensures var after := AfterBalancer(g, h, B.Input(g.balancers[h], task, now, pick));
            ExactAt(after, b, s)
  {
    InputStamps(g.balancers[h], task, now, pick);
    if b == h {
      InputOutstanding(g.balancers[h], task, now, pick, s);
    }
    ClientKeepsExact(g, h, B.Input(g.balancers[h], task, now, pick), b, s);
  }

  /** An evicted task stays counted when the express balancer queues or forwards it. */
  lemma ExpressInputExact(g: Cluster, g0: Cluster, i: nat, h: nat, pick: nat, b: nat, s: nat)
    requires i < |g.evicted| && g0 == g.(evicted := RemoveAt(g.evicted, i))
    requires h < |g.balancers| && ExactAt(g, b, s)
    requires g.balancers[h].Valid() && CanPick(g, h, pick) && g.balancers[h].cfg.preserveMetadata
    ensures var after := AfterBalancer(g0, h, B.Input(g.balancers[h], g.evicted[i], g.now, pick));
            ExactAt(after, b, s)
  {
    var f := OwnedBy(b, s);
    SumRemove(g.evicted, i, OfTask(f));
    InputFlow(g.balancers[h], g.evicted[i], g.now, pick, f);
    HeldAfterBalancer(g0, h, B.Input(g.balancers[h], g.evicted[i], g.now, pick), f, ReleaseTo(b, s));
  }

  lemma PullStamps(l: B.Balancer, pull: PullRequest, now: Time)
    requires l.Valid() && pull.serverIdx < |l.localInflight| && !l.cfg.preserveMetadata
    ensures B.Pull(l, pull, now).Fulfilled? ==> Stamps(l.cfg.lbId, B.Pull(l, pull, now).effects.out.tasks)
  {
  }

  lemma PullExact(g: Cluster, h: nat, pull: PullRequest, b: nat, s: nat)
    requires h < |g.balancers| && ExactAt(g, b, s)
    requires g.balancers[h].Valid() && g.balancers[h].cfg.lbId == h && pull.serverIdx < |g.balancers[h].localInflight|
    requires B.Pull(g.balancers[h], pull, g.now).Fulfilled?
    ensures var after := AfterBalancer(g, h, B.Pull(g.balancers[h], pull, g.now).effects);
            ExactAt(after, b, s)
  {
    var l := g.balancers[h];
    var fx := B.Pull(l, pull, g.now).effects;
    if l.cfg.preserveMetadata {
      PullFlow(l, pull, g.now, OwnedBy(b, s));
      HeldAfterBalancer(g, h, fx, OwnedBy(b, s), ReleaseTo(b, s));
    } else {
      PullStamps(l, pull, g.now);
      if b == h {
        PullOutstanding(l, pull, g.now, s);
      }
      ClientKeepsExact(g, h, fx, b, s);
    }
  }

  lemma CountPositive(g: Cluster, i: nat)
    requires i < |g.releases| && ExactAt(g, g.releases[i].lb, g.releases[i].server)
    ensures g.balancers[g.releases[i].lb].localInflight[g.releases[i].server] > 0
  {
    var m := g.releases[i];
    var f, r := OwnedBy(m.lb, m.server), ReleaseTo(m.lb, m.server);
    SumNonNegative(g.tasks, OfMsg(f));
    assert NonNegative(QueuedAt(f)) by {
      forall v ensures QueuedAt(f)(v) >= 0 { SumNonNegative(v.queue, OfTask(f)); }
    }
    SumNonNegative(g.servers, QueuedAt(f));
    SumNonNegative(g.completions, OfCompletion(f));
    SumNonNegative(g.evicted, OfTask(f));
    assert NonNegative(QueuedExpress(f)) by {
      forall l ensures QueuedExpress(f)(l) >= 0 { SumNonNegative(l.queue, OfTask(f)); }
    }
    SumNonNegative(g.balancers, QueuedExpress(f));
    SumAtLeast(g.releases, i, r);
  }

  lemma ReleaseExact(g: Cluster, i: nat, b: nat, s: nat)
    requires WellFormed(g) && i < |g.releases| && Client(g, b, s) && Exact(g)
    ensures ExactAt(ReleaseDelivered(g, i), b, s)
  {
    var m := g.releases[i];
    assert ReleaseAt(g.topo, m) && ExactAt(g, b, s);
    if m.lb == b && m.server == s {
      CountPositive(g, i);
    }
    SumRemove(g.releases, i, ReleaseTo(b, s));
    HeldAfterBalancer(g.(releases := RemoveAt(g.releases, i)), m.lb,
                      B.Start(B.Release(g.balancers[m.lb], m.server)), OwnedBy(b, s), ReleaseTo(b, s));
  }

  /** A server handler that takes `taken` counted tasks from the channels keeps every count exact. */
  lemma ServerStepExact(g: Cluster, g0: Cluster, v: nat, fx: S.ServerEffects, taken: int, b: nat, s: nat)
    requires ExactAt(g, b, s)
    requires v < |g0.servers| && g0.balancers == g.balancers && g0.servers == g.servers
    requires Held(g0, OwnedBy(b, s), ReleaseTo(b, s)) == Held(g, OwnedBy(b, s), ReleaseTo(b, s)) - taken
    requires AtServer(fx, OwnedBy(b, s), Nothing(), ReleaseTo(b, s))
          == Sum(g.servers[v].queue, OfTask(OwnedBy(b, s))) + taken
    ensures ExactAt(AfterServer(g0, v, fx), b, s)
  {
    HeldAfterServer(g0, v, fx, OwnedBy(b, s), ReleaseTo(b, s));
  }

  lemma TaskExact(g: Cluster, i: nat, b: nat, s: nat)
    requires WellFormed(g) && i < |g.tasks| && ExactAt(g, b, s)
    ensures ExactAt(TaskDelivered(g, i), b, s)
  {
    var m := g.tasks[i];
    assert TaskAt(g.topo, m.server, m.task) && ServerWired(g.topo, m.server);
    var f, r := OwnedBy(b, s), ReleaseTo(b, s);
    SumRemove(g.tasks, i, OfMsg(f));
    ServerInputFlow(g.servers[m.server], m.task, g.now, f, Nothing(), r);
    ServerStepExact(g, g.(tasks := RemoveAt(g.tasks, i)), m.server,
                    S.Input(g.servers[m.server], m.task, g.now), f(IdentityOf(m.task)), b, s);
  }

  lemma IntentExact(g: Cluster, i: nat, b: nat, s: nat)
    requires WellFormed(g) && i < |g.intents| && ExactAt(g, b, s)
    ensures ExactAt(IntentDelivered(g, i), b, s)
  {
    var m := g.intents[i];
    assert IntentAt(g.topo, m.server, m.intent);
    ServerStepExact(g, g.(intents := RemoveAt(g.intents, i)), m.server,
                    S.ReceiveIntent(g.servers[m.server], m.intent), 0, b, s);
  }

  lemma InitialPullExact(g: Cluster, i: nat, b: nat, s: nat)
    requires WellFormed(g) && i < |g.initialPulls| && ExactAt(g, b, s)
    ensures ExactAt(InitialPullFired(g, i), b, s)
  {
    var q := g.initialPulls[i];
    ServerStepExact(g, g.(now := q.at, initialPulls := RemoveAt(g.initialPulls, i)), q.server,
                    S.RequestPull(g.servers[q.server]), 0, b, s);
  }

  lemma CompletionExact(g: Cluster, i: nat, b: nat, s: nat)
    requires WellFormed(g) && i < |g.completions| && g.servers[g.completions[i].server].inFlight > 0
    requires ExactAt(g, b, s)
    ensures ExactAt(CompletionFired(g, i), b, s)
  {
    var c := g.completions[i];
    assert CompletionAt(g.topo, c) && BalancerWired(g.topo, b);
    var f, r := OwnedBy(b, s), ReleaseTo(b, s);
    SumRemove(g.completions, i, OfCompletion(f));
    CompleteFlow(g.servers[c.server], c.task, c.at, f, Nothing(), r);
    ReleasedOnce(g.topo, c.server, g.servers[c.server], c.task, b, s);
    ServerStepExact(g, g.(now := c.at, completions := RemoveAt(g.completions, i)), c.server,
                    S.Complete(g.servers[c.server], c.task, c.at), f(IdentityOf(c.task)), b, s);
  }

  /** Completing a task releases its owner's count for its origin once, even from an express server. */
  lemma ReleasedOnce(p: Topology, v: nat, state: S.ServerState, task: Task, b: nat, s: nat)
    requires Wired(p) && TaskAt(p, v, task) && state.cfg == p.servers[v] && ClientLb(p, b)
    ensures Sum(S.ReleasesOf(state, task), ReleaseTo(b, s)) == OwnedBy(b, s)(IdentityOf(task))
  {
    assert ServerWired(p, v);
    var r := ReleaseTo(b, s);
    if state.cfg.isExpress {
      var first, second := ReleaseMsg(state.cfg.homeLb, state.cfg.index), ReleaseMsg(task.lbId, task.originServer);
      assert [first, second] == [first] + [second];
      SumAppend([first], second, r);
      SumOne(first, r);
    } else {
      SumOne(ReleaseMsg(task.lbId, state.cfg.index), r);
    }
  }

  lemma TimerExact(g: Cluster, i: nat, b: nat, s: nat)
    requires WellFormed(g) && i < |g.timers| && ExactAt(g, b, s)
    ensures ExactAt(TimerFired(g, i), b, s)
  {
    var e := g.timers[i];
    assert TimerAt(g.topo, e) && ServerWired(g.topo, e.server);
    var v := g.servers[e.server];
    assert forall j :: 0 <= j < |v.queue| ==> TaskAt(g.topo, e.server, v.queue[j]);
    TimerFlow(v, e.start, e.at, OwnedBy(b, s), Nothing(), ReleaseTo(b, s));
    ServerStepExact(g, g.(now := e.at, timers := RemoveAt(g.timers, i)), e.server, TimerEffects(v, e), 0, b, s);
  }

  lemma ArriveExact(g: Cluster, i: nat, pick: nat, b: nat, s: nat)
    requires WellFormed(g) && i < |g.arrivals| && CanPick(g, g.arrivals[i].lb, pick)
    requires ExactAt(g, b, s)
    ensures ExactAt(Arrived(g, i, pick), b, s)
  {
    var a := g.arrivals[i];
    assert BalancerWired(g.topo, a.lb);
    ClientInputExact(g.(now := a.at, arrivals := RemoveAt(g.arrivals, i)), a.lb, a.task, a.at, pick, b, s);
  }

  lemma PulledExact(g: Cluster, i: nat, b: nat, s: nat)
    requires WellFormed(g) && i < |g.pulls| && ExactAt(g, b, s)
    ensures ExactAt(PullDelivered(g, i), b, s)
  {
    var m := g.pulls[i];
    assert PullAt(g.topo, m) && BalancerWired(g.topo, m.lb);
    if B.Pull(g.balancers[m.lb], m.pull, g.now).Fulfilled? {
      PullExact(g.(pulls := RemoveAt(g.pulls, i)), m.lb, m.pull, b, s);
    }
  }

  lemma EvictedExact(g: Cluster, i: nat, pick: nat, b: nat, s: nat)
    requires WellFormed(g) && i < |g.evicted| && CanPick(g, g.topo.expressLb, pick)
    requires ExactAt(g, b, s)
    ensures ExactAt(EvictedDelivered(g, i, pick), b, s)
  {
    assert ExpressLb(g.topo);
    ExpressInputExact(g, g.(evicted := RemoveAt(g.evicted, i)), i, g.topo.expressLb, pick, b, s);
  }

  lemma ShedExact(g: Cluster, i: nat, pick: nat, b: nat, s: nat)
    requires WellFormed(g) && i < |g.shed| && CanPick(g, g.shed[i].lb, pick)
    requires ExactAt(g, b, s)
    ensures ExactAt(ShedDelivered(g, i, pick), b, s)
  {
    var m := g.shed[i];
    assert BalancerWired(g.topo, m.lb);
    ClientInputExact(g.(shed := RemoveAt(g.shed, i)), m.lb, m.task, g.now, pick, b, s);
  }

  lemma NextExactAt(g: Cluster, step: Step, b: nat, s: nat)
    requires WellFormed(g) && Enabled(g, step) && Exact(g) && ExactAt(g, b, s)
    ensures ExactAt(Next(g, step), b, s)
  {
    match step
    case Arrive(i, pick) => ArriveExact(g, i, pick, b, s);
    case DeliverTask(i) => TaskExact(g, i, b, s);
    case DeliverIntent(i) => IntentExact(g, i, b, s);
    case DeliverPull(i) => PulledExact(g, i, b, s);
    case DeliverRelease(i) => ReleaseExact(g, i, b, s);
    case DeliverEvicted(i, pick) => EvictedExact(g, i, pick, b, s);
    case DeliverShed(i, pick) => ShedExact(g, i, pick, b, s);
    case FireCompletion(i) => CompletionExact(g, i, b, s);
    case FireInitialPull(i) => InitialPullExact(g, i, b, s);
    case FireTimer(i) => TimerExact(g, i, b, s);
  }

  /** Exact accounting is kept by every handler of every mode. */
  lemma NextKeepsExact(g: Cluster, step: Step)
    requires WellFormed(g) && Enabled(g, step) && Exact(g)
    ensures Exact(Next(g, step))
  {
    Wiring.NextKeepsWellFormed(g, step);
    forall b: nat, s: nat | Client(Next(g, step), b, s) ensures ExactAt(Next(g, step), b, s) {
      assert g.balancers[b].cfg == g.topo.balancers[b].cfg;
      assert Client(g, b, s);
      NextExactAt(g, step, b, s);
    }
  }

  /** No release ever meets a count of zero, at a client balancer or at the express balancer, so its saturating
      subtraction is an exact one. */
  lemma ReleaseNeverSaturates(g: Cluster, i: nat)
    requires WellFormed(g) && Exact(g) && Expresses.Exact(g) && i < |g.releases|
    ensures g.releases[i].lb < |g.balancers| && g.releases[i].server < |g.balancers[g.releases[i].lb].localInflight|
    ensures g.balancers[g.releases[i].lb].localInflight[g.releases[i].server] > 0
  {
    var m := g.releases[i];
    assert ReleaseAt(g.topo, m);
    if ClientLb(g.topo, m.lb) {
      assert Client(g, m.lb, m.server);
      CountPositive(g, i);
    } else {
      assert Expresses.Express(g, m.lb, m.server);
      Expresses.ReleaseCounted(g, i);
    }
  }

  lemma InitialExact(g: Cluster)
    requires Initial(g)
    ensures Exact(g)
  {
    forall b: nat, s: nat | Client(g, b, s) ensures ExactAt(g, b, s) {
      var f := OwnedBy(b, s);
      assert FreshBalancer(g.balancers[b]);
      SumZero(g.servers, QueuedAt(f));
      forall i | 0 <= i < |g.balancers| ensures QueuedExpress(f)(g.balancers[i]) == 0 {
        assert FreshBalancer(g.balancers[i]);
      }
      SumZero(g.balancers, QueuedExpress(f));
    }
  }
}
