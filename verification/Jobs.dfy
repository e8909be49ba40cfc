/** Conservation of jobs: whatever happens to a request, whichever servers it visits and however often it is
    evicted or shed, it is in exactly one place, still owned by the client balancer it arrived at. */
module Jobs {
  import opened Domain
  import opened Sums
  import opened Clusters
  import opened Flows
  import B = Balancers
  import S = Servers
  import Accounting

  /** A weight for a job: its client balancer, start and duration. Conservation of every weight is
      conservation of the multiset of jobs. */
  type Weight = (nat, Time, nat) -> int

  function AsOwned(w: Weight): Measure
  {
    (id: Identity) => w(id.lbId, id.start, id.duration)
  }

  /** Weighs a task as a job of balancer `b`, whatever the task's own owner field says yet. */
  function AsOf(w: Weight, b: nat): Measure
  {
    (id: Identity) => w(b, id.start, id.duration)
  }

  function NoRelease(): ReleaseMsg -> int
  {
    (_: ReleaseMsg) => 0
  }

  function OfArrival(w: Weight): Arrival -> int
  {
    (a: Arrival) => w(a.lb, a.task.start, a.task.duration)
  }

  function MeasureAt(w: Weight, l: B.Balancer): Measure
  {
    if l.cfg.preserveMetadata then AsOwned(w) else AsOf(w, l.cfg.lbId)
  }

  function QueuedJobs(w: Weight): B.Balancer -> int
  {
    (l: B.Balancer) => Sum(l.queue, OfTask(MeasureAt(w, l)))
  }

  /** Every task that has been dispatched by a client balancer and has not been queued by one since. */
  ghost function Dispatched(g: Cluster, f: Measure): int
  {
    Sum(g.tasks, OfMsg(f)) + Sum(g.servers, Accounting.QueuedAt(f)) + Sum(g.completions, OfCompletion(f))
    + Sum(g.evicted, OfTask(f)) + Sum(g.shed, OfShed(f)) + Sum(g.done, OfTask(f))
  }

  /** All jobs, in whatever state. */
  ghost function Total(g: Cluster, w: Weight): int
  {
    Sum(g.arrivals, OfArrival(w)) + Sum(g.balancers, QueuedJobs(w)) + Dispatched(g, AsOwned(w))
  }

  lemma DispatchedAfterServer(g: Cluster, s: nat, fx: S.ServerEffects, f: Measure)
    requires s < |g.servers|
    ensures Dispatched(AfterServer(g, s, fx), f)
         == Dispatched(g, f) - Sum(g.servers[s].queue, OfTask(f))
            + AtServer(fx, f, f, NoRelease()) + Sum(fx.out.finished, OfTask(f))
  {
    SumUpdate(g.servers, s, fx.server, Accounting.QueuedAt(f));
    SumConcat(g.completions, fx.out.completions, OfCompletion(f));
    SumConcat(g.evicted, fx.out.evicted, OfTask(f));
    SumConcat(g.shed, fx.out.shed, OfShed(f));
    SumConcat(g.done, fx.out.finished, OfTask(f));
    SumZero(fx.out.releases, NoRelease());
  }

  lemma TotalAfterBalancer(g: Cluster, b: nat, fx: B.Effects, w: Weight)
    requires b < |g.balancers| && fx.balancer.cfg == g.balancers[b].cfg && fx.balancer.cfg.lbId == b
    requires !fx.balancer.cfg.preserveMetadata ==> Accounting.Stamps(b, fx.out.tasks)
    ensures Total(AfterBalancer(g, b, fx), w)
         == Total(g, w) - QueuedJobs(w)(g.balancers[b]) + AtBalancer(fx, MeasureAt(w, g.balancers[b]))
  {
    SumUpdate(g.balancers, b, fx.balancer, QueuedJobs(w));
    SumConcat(g.tasks, fx.out.tasks, OfMsg(AsOwned(w)));
    if !fx.balancer.cfg.preserveMetadata {
      forall i | 0 <= i < |fx.out.tasks|
        ensures OfMsg(AsOwned(w))(fx.out.tasks[i]) == OfMsg(AsOf(w, b))(fx.out.tasks[i])
      {
        assert IdentityOf(fx.out.tasks[i].task).lbId == b;
      }
      SumSame(fx.out.tasks, OfMsg(AsOwned(w)), OfMsg(AsOf(w, b)));
    }
  }

  lemma InputKeepsTotal(g: Cluster, g0: Cluster, b: nat, task: Task, now: Time, pick: nat, w: Weight)
    requires WellFormed(g) && CanPick(g, b, pick) && g0.balancers == g.balancers
    requires Total(g0, w) + MeasureAt(w, g.balancers[b])(IdentityOf(task)) == Total(g, w)
    ensures Total(AfterBalancer(g0, b, B.Input(g.balancers[b], task, now, pick)), w) == Total(g, w)
  {
    var l := g.balancers[b];
    assert BalancerWired(g.topo, b);
    InputFlow(l, task, now, pick, MeasureAt(w, l));
    if !l.cfg.preserveMetadata {
      Accounting.InputStamps(l, task, now, pick);
    }
    TotalAfterBalancer(g0, b, B.Input(l, task, now, pick), w);
  }

  lemma ArriveKeepsTotal(g: Cluster, i: nat, pick: nat, w: Weight)
    requires WellFormed(g) && i < |g.arrivals| && CanPick(g, g.arrivals[i].lb, pick)
    ensures Total(Arrived(g, i, pick), w) == Total(g, w)
  {
    var a := g.arrivals[i];
    assert BalancerWired(g.topo, a.lb);
    SumRemove(g.arrivals, i, OfArrival(w));
    InputKeepsTotal(g, g.(now := a.at, arrivals := RemoveAt(g.arrivals, i)), a.lb, a.task, a.at, pick, w);
  }

  lemma EvictedKeepsTotal(g: Cluster, i: nat, pick: nat, w: Weight)
    requires WellFormed(g) && i < |g.evicted| && CanPick(g, g.topo.expressLb, pick)
    ensures Total(EvictedDelivered(g, i, pick), w) == Total(g, w)
  {
    SumRemove(g.evicted, i, OfTask(AsOwned(w)));
    assert ExpressLb(g.topo);
    InputKeepsTotal(g, g.(evicted := RemoveAt(g.evicted, i)), g.topo.expressLb, g.evicted[i], g.now, pick, w);
  }

  lemma ShedKeepsTotal(g: Cluster, i: nat, pick: nat, w: Weight)
    requires WellFormed(g) && i < |g.shed| && CanPick(g, g.shed[i].lb, pick)
    ensures Total(ShedDelivered(g, i, pick), w) == Total(g, w)
  {
    var m := g.shed[i];
    assert BalancerWired(g.topo, m.lb);
    SumRemove(g.shed, i, OfShed(AsOwned(w)));
    InputKeepsTotal(g, g.(shed := RemoveAt(g.shed, i)), m.lb, m.task, g.now, pick, w);
  }

  lemma PullKeepsTotal(g: Cluster, i: nat, w: Weight)
    requires WellFormed(g) && i < |g.pulls|
    ensures Total(PullDelivered(g, i), w) == Total(g, w)
  {
    var m := g.pulls[i];
    assert PullAt(g.topo, m) && BalancerWired(g.topo, m.lb);
    var l := g.balancers[m.lb];
    PullFlow(l, m.pull, g.now, MeasureAt(w, l));
    if !l.cfg.preserveMetadata {
      Accounting.PullStamps(l, m.pull, g.now);
    }
    var r := B.Pull(l, m.pull, g.now);
    if r.Fulfilled? {
      TotalAfterBalancer(g.(pulls := RemoveAt(g.pulls, i)), m.lb, r.effects, w);
    }
  }

  lemma ReleaseKeepsTotal(g: Cluster, i: nat, w: Weight)
    requires WellFormed(g) && i < |g.releases|
    ensures Total(ReleaseDelivered(g, i), w) == Total(g, w)
  {
    var m := g.releases[i];
    assert ReleaseAt(g.topo, m) && BalancerWired(g.topo, m.lb);
    TotalAfterBalancer(g.(releases := RemoveAt(g.releases, i)), m.lb, B.Start(B.Release(g.balancers[m.lb], m.server)), w);
  }

  lemma {:induction false} DrainFinishes(fx: S.ServerEffects, now: Time)
    ensures S.DrainQueue(fx, now).out.finished == fx.out.finished
    decreases |fx.server.queue|
  {
    var v := fx.server;
    if v.inFlight < v.cfg.maxConcurrency && v.queue != [] {
      DrainFinishes(S.BeginService(S.TakeHead(fx, now), v.queue[0], now), now);
    }
  }

  lemma InputFinishes(v: S.ServerState, task: Task, now: Time)
    requires v.Valid()
    ensures S.Input(v, task, now).out.finished == []
  {
    if v.cfg.mode == S.Push && v.inFlight >= v.cfg.maxConcurrency {
      EvictionFinishes(S.Begin(S.SampleLevel(v.(queue := v.queue + [task]), now)), task.start, now);
    }
  }

  lemma EvictionFinishes(fx: S.ServerEffects, start: Time, now: Time)
    requires fx.server.queue != []
    ensures S.ApplyEviction(fx, start, now).out.finished == fx.out.finished
  {
  }

  lemma TaskKeepsDispatched(g: Cluster, i: nat, f: Measure)
    requires WellFormed(g) && i < |g.tasks|
    ensures Dispatched(TaskDelivered(g, i), f) == Dispatched(g, f)
  {
    var m := g.tasks[i];
    assert TaskAt(g.topo, m.server, m.task);
    SumRemove(g.tasks, i, OfMsg(f));
    ServerInputFlow(g.servers[m.server], m.task, g.now, f, f, NoRelease());
    InputFinishes(g.servers[m.server], m.task, g.now);
    DispatchedAfterServer(g.(tasks := RemoveAt(g.tasks, i)), m.server,
                          S.Input(g.servers[m.server], m.task, g.now), f);
  }

  /** A completion finishes its own task and no other. */
  lemma CompleteFinishes(v: S.ServerState, task: Task, now: Time, f: Measure)
    requires v.inFlight > 0
    ensures var r := S.Complete(v, task, now);
            AtServer(r, f, f, NoRelease()) + Sum(r.out.finished, OfTask(f)) == Sum(v.queue, OfTask(f)) + f(IdentityOf(task))
  {
    CompleteFlow(v, task, now, f, f, NoRelease());
    SumZero(S.ReleasesOf(v, task), NoRelease());
    if v.cfg.mode == S.Push {
      DrainFinishes(S.Ended(v, task, now), now);
    }
    var done := task.(finish := now, servedByExpress := v.cfg.isExpress);
    SumOne(done, OfTask(f));
    assert IdentityOf(done) == IdentityOf(task);
  }

  lemma CompletionKeepsDispatched(g: Cluster, i: nat, f: Measure)
    requires WellFormed(g) && i < |g.completions| && g.servers[g.completions[i].server].inFlight > 0
    ensures Dispatched(CompletionFired(g, i), f) == Dispatched(g, f)
  {
    var c := g.completions[i];
    assert CompletionAt(g.topo, c);
    SumRemove(g.completions, i, OfCompletion(f));
    CompleteFinishes(g.servers[c.server], c.task, c.at, f);
    DispatchedAfterServer(g.(now := c.at, completions := RemoveAt(g.completions, i)), c.server,
                          S.Complete(g.servers[c.server], c.task, c.at), f);
  }

  lemma TimerKeepsDispatched(g: Cluster, i: nat, f: Measure)
    requires WellFormed(g) && i < |g.timers|
    ensures Dispatched(TimerFired(g, i), f) == Dispatched(g, f)
  {
    var e := g.timers[i];
    assert TimerAt(g.topo, e);
    TimerFlow(g.servers[e.server], e.start, e.at, f, f, NoRelease());
    DispatchedAfterServer(g.(now := e.at, timers := RemoveAt(g.timers, i)), e.server,
                          TimerEffects(g.servers[e.server], e), f);
  }

  lemma IntentMovesNoTask(v: S.ServerState, it: PullIntent, f: Measure)
    ensures var r := S.ReceiveIntent(v, it);
            AtServer(r, f, f, NoRelease()) == Sum(v.queue, OfTask(f)) && r.out.finished == []
  {
  }

  lemma IntentKeepsDispatched(g: Cluster, i: nat, f: Measure)
    requires WellFormed(g) && i < |g.intents|
    ensures Dispatched(IntentDelivered(g, i), f) == Dispatched(g, f)
  {
    var m := g.intents[i];
    assert IntentAt(g.topo, m.server, m.intent);
    IntentMovesNoTask(g.servers[m.server], m.intent, f);
    DispatchedAfterServer(g.(intents := RemoveAt(g.intents, i)), m.server,
                          S.ReceiveIntent(g.servers[m.server], m.intent), f);
  }

  lemma InitialPullKeepsDispatched(g: Cluster, i: nat, f: Measure)
    requires WellFormed(g) && i < |g.initialPulls|
    ensures Dispatched(InitialPullFired(g, i), f) == Dispatched(g, f)
  {
    var q := g.initialPulls[i];
    DispatchedAfterServer(g.(now := q.at, initialPulls := RemoveAt(g.initialPulls, i)), q.server,
                          S.RequestPull(g.servers[q.server]), f);
  }

  ghost predicate AtAServer(step: Step)
  {
    step.DeliverTask? || step.DeliverIntent? || step.FireCompletion? || step.FireInitialPull? || step.FireTimer?
  }

  /** A server handler moves tasks about, and keeps every measure of the dispatched ones. */
  lemma ServerKeepsDispatched(g: Cluster, step: Step, f: Measure)
    requires WellFormed(g) && Enabled(g, step) && AtAServer(step)
    ensures Dispatched(Next(g, step), f) == Dispatched(g, f)
    ensures Next(g, step).balancers == g.balancers && Next(g, step).arrivals == g.arrivals
  {
    match step
    case DeliverTask(i) => TaskKeepsDispatched(g, i, f);
    case DeliverIntent(i) => IntentKeepsDispatched(g, i, f);
    case FireCompletion(i) => CompletionKeepsDispatched(g, i, f);
    case FireInitialPull(i) => InitialPullKeepsDispatched(g, i, f);
    case FireTimer(i) => TimerKeepsDispatched(g, i, f);
  }

  /** No step loses, duplicates or reassigns a job. */
  lemma NextKeepsTotal(g: Cluster, step: Step, w: Weight)
    requires WellFormed(g) && Enabled(g, step)
    ensures Total(Next(g, step), w) == Total(g, w)
  {
    match step
    case Arrive(i, pick) => ArriveKeepsTotal(g, i, pick, w);
    case DeliverPull(i) => PullKeepsTotal(g, i, w);
    case DeliverRelease(i) => ReleaseKeepsTotal(g, i, w);
    case DeliverEvicted(i, pick) => EvictedKeepsTotal(g, i, pick, w);
    case DeliverShed(i, pick) => ShedKeepsTotal(g, i, pick, w);
    case _ => ServerKeepsDispatched(g, step, AsOwned(w));
  }

  lemma InitialTotal(g: Cluster, w: Weight)
    requires Initial(g)
    ensures Total(g, w) == Sum(g.arrivals, OfArrival(w))
  {
    forall b | 0 <= b < |g.balancers| ensures QueuedJobs(w)(g.balancers[b]) == 0 {
      assert FreshBalancer(g.balancers[b]);
    }
    SumZero(g.balancers, QueuedJobs(w));
    SumZero(g.servers, Accounting.QueuedAt(AsOwned(w)));
  }
}
