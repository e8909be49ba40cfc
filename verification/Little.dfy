/** Little's identity on every run: the area under a balancer's queue-length curve, accumulated sample by sample,
    is the total time its tasks have waited there, in whatever order the tasks leave the queue. */
module Little {
  import opened Domain
  import opened Sums
  import opened Clusters
  import opened Flows
  import B = Balancers
  import Occ = Occupancy
  import Accounting
  import Jobs
  import Timing
  import Wiring

  /** No express lane and no work shedding: a task is dispatched once. */
  ghost predicate Plain(p: Topology)
  {
    && (forall b :: 0 <= b < |p.balancers| ==> !p.balancers[b].cfg.preserveMetadata)
    && (forall s :: 0 <= s < |p.servers| ==> p.servers[s].eviction.None? && p.servers[s].shedding.None?)
  }

  /** The time a dispatched task of balancer `b` has waited in the balancer's queue. */
  function Waited(b: nat): Measure
  {
    (id: Identity) => if id.lbId == b && id.dispatchedAt.Some? then id.dispatchedAt.value - id.start else 0
  }

  /** The time a task has waited so far. */
  function Age(now: Time): Task -> int
  {
    (t: Task) => now - t.start
  }

  /** The accumulator has seen the current queue length. */
  ghost predicate Current(l: B.Balancer, now: Time)
  {
    && Occ.Level(l.occupancy) == |l.queue|
    && (l.occupancy.lastSample.Some? ==> l.occupancy.lastSample.value <= now)
  }

  ghost predicate LittleAt(g: Cluster, b: nat)
  {
    b < |g.balancers| &&
    var l := g.balancers[b];
    l.cfg.policy != B.Push ==>
      && Current(l, g.now)
      && Occ.IntegralAt(l.occupancy, g.now) == Jobs.Dispatched(g, Waited(b)) + Sum(l.queue, Age(g.now))
  }

  ghost predicate LittleOk(g: Cluster)
  {
    forall b: nat :: b < |g.balancers| ==> LittleAt(g, b)
  }

  // Balancers

  /** The measured area, less the time waited by the tasks still queued and by those sent since. */
  ghost function Gap(fx: B.Effects, now: Time): int
  {
    Occ.IntegralAt(fx.balancer.occupancy, now) - Sum(fx.balancer.queue, Age(now))
    - Sum(fx.out.tasks, OfMsg(Waited(fx.balancer.cfg.lbId)))
  }

  lemma StampWaits(l: B.Balancer, server: nat, t: Task, now: Time)
    requires !l.cfg.preserveMetadata
    ensures OfMsg(Waited(l.cfg.lbId))(TaskMsg(server, B.Stamped(l, server, t, now))) == Age(now)(t)
  {
    var u := B.Stamped(l, server, t, now);
    assert IdentityOf(u) == Identity(l.cfg.lbId, server, t.start, t.duration, Some(now));
    assert OfMsg(Waited(l.cfg.lbId))(TaskMsg(server, u)) == Waited(l.cfg.lbId)(IdentityOf(u));
  }

  lemma HeadGap(fx: B.Effects, server: nat, now: Time)
    requires fx.Valid() && server < |fx.balancer.localInflight| && fx.balancer.queue != []
    requires !fx.balancer.cfg.preserveMetadata
    ensures Gap(B.DispatchHead(fx, server, now), now) == Gap(fx, now)
    ensures Current(B.DispatchHead(fx, server, now).balancer, now)
  {
    var l := fx.balancer;
    SumRemove(l.queue, 0, Age(now));
    Occ.SamplingKeepsIntegral(l.occupancy, now, |l.queue| - 1);
    var sent := TaskMsg(server, B.Stamped(B.Dequeued(l, 0, now), server, l.queue[0], now));
    SumAppend(fx.out.tasks, sent, OfMsg(Waited(l.cfg.lbId)));
    StampWaits(B.Dequeued(l, 0, now), server, l.queue[0], now);
    assert B.DispatchHead(fx, server, now).out.tasks == fx.out.tasks + [sent];
  }

  lemma {:induction false} WaitingGap(fx: B.Effects, now: Time)
    requires fx.Valid() && !fx.balancer.cfg.preserveMetadata && Current(fx.balancer, now)
    ensures Gap(B.DispatchWaiting(fx, now), now) == Gap(fx, now)
    ensures Current(B.DispatchWaiting(fx, now).balancer, now)
    decreases |fx.balancer.waiting|
  {
    var l := fx.balancer;
    if l.waiting != [] && l.queue != [] {
      var popped := fx.(balancer := l.(waiting := l.waiting[1..]));
      HeadGap(popped, l.waiting[0], now);
      WaitingGap(B.DispatchHead(popped, l.waiting[0], now), now);
    }
  }

  /** A task that arrives now has not waited yet. */
  lemma InputGap(l: B.Balancer, task: Task, now: Time, pick: nat)
    requires l.Valid() && pick < |l.cfg.serverIndices| && !l.cfg.preserveMetadata && l.cfg.policy != B.Push
    requires task.start == now
    ensures Gap(B.Input(l, task, now, pick), now) == Gap(B.Start(l), now)
    ensures Current(B.Input(l, task, now, pick).balancer, now)
  {
    var queued := B.Enqueued(l, task, now);
    SumAppend(l.queue, task.(taskId := l.nextTaskId), Age(now));
    Occ.SamplingKeepsIntegral(l.occupancy, now, |l.queue| + 1);
    assert Gap(B.Start(queued), now) == Gap(B.Start(l), now);
    if l.cfg.policy == B.Centralized {
      WaitingGap(B.Start(queued), now);
    }
  }

  /** The task a pull takes, from wherever in the queue, carries its waiting time along. */
  lemma PullGap(l: B.Balancer, pull: PullRequest, now: Time)
    requires l.Valid() && pull.serverIdx < |l.localInflight| && !l.cfg.preserveMetadata && Current(l, now)
    ensures var r := B.Pull(l, pull, now);
            r.Fulfilled? ==> Gap(r.effects, now) == Gap(B.Start(l), now) && Current(r.effects.balancer, now)
  {
    if l.cfg.policy == B.AmphiQueue {
      var i := B.PullIndex(l, pull);
      if i < |l.queue| {
        SumRemove(l.queue, i, Age(now));
        Occ.SamplingKeepsIntegral(l.occupancy, now, |l.queue| - 1);
        var sent := TaskMsg(pull.serverIdx, B.Stamped(l, pull.serverIdx, l.queue[i], now));
        assert B.Fulfil(l, pull, i, now).out.tasks == [sent];
        SumOne(sent, OfMsg(Waited(l.cfg.lbId)));
        StampWaits(l, pull.serverIdx, l.queue[i], now);
        assert B.Fulfil(l, pull, i, now).balancer.queue == RemoveAt(l.queue, i);
      }
    } else if l.queue != [] {
      HeadGap(B.Start(l), pull.serverIdx, now);
    }
  }

  // Steps

  lemma AdvanceLittle(g: Cluster, g0: Cluster, b: nat)
    requires LittleAt(g, b) && g0.balancers == g.balancers && g0.now >= g.now
    requires Jobs.Dispatched(g0, Waited(b)) == Jobs.Dispatched(g, Waited(b))
    ensures LittleAt(g0, b)
  {
    var l := g.balancers[b];
    if l.cfg.policy != B.Push {
      var dt := g0.now - g.now;
      SumLinear(l.queue, Age(g.now), One<Task>(), Age(g0.now), dt);
      SumOfOnes(l.queue);
      Occ.IntegralGrows(l.occupancy, g.now, g0.now);
    }
  }

  /** A handler of balancer `h` that keeps the gap keeps the identity of every balancer. */
  lemma BalancerLittle(g: Cluster, h: nat, fx: B.Effects, b: nat)
    requires LittleAt(g, b) && h < |g.balancers| && g.balancers[h].cfg == fx.balancer.cfg
    requires fx.balancer.cfg.lbId == h && Accounting.Stamps(h, fx.out.tasks)
    requires b == h && fx.balancer.cfg.policy != B.Push ==>
               Gap(fx, g.now) == Gap(B.Start(g.balancers[h]), g.now) && Current(fx.balancer, g.now)
    ensures LittleAt(AfterBalancer(g, h, fx), b)
  {
    DispatchedAfterBalancer(g, h, fx, Waited(b));
    if b != h {
      NotMine(fx.out.tasks, h, b);
    }
  }

  lemma DispatchedAfterBalancer(g: Cluster, h: nat, fx: B.Effects, f: Measure)
    requires h < |g.balancers|
    ensures Jobs.Dispatched(AfterBalancer(g, h, fx), f) == Jobs.Dispatched(g, f) + Sum(fx.out.tasks, OfMsg(f))
  {
    SumConcat(g.tasks, fx.out.tasks, OfMsg(f));
  }

  lemma NotMine(tasks: seq<TaskMsg>, h: nat, b: nat)
    requires Accounting.Stamps(h, tasks) && b != h
    ensures Sum(tasks, OfMsg(Waited(b))) == 0
  {
    forall i | 0 <= i < |tasks| ensures OfMsg(Waited(b))(tasks[i]) == 0 {
      assert IdentityOf(tasks[i].task).lbId == h;
    }
    SumZero(tasks, OfMsg(Waited(b)));
  }

  lemma ArriveLittle(g: Cluster, i: nat, pick: nat, b: nat)
    requires WellFormed(g) && Plain(g.topo) && Timing.Timely(g) && LittleAt(g, b)
    requires i < |g.arrivals| && CanPick(g, g.arrivals[i].lb, pick)
    ensures LittleAt(Arrived(g, i, pick), b)
  {
    var a := g.arrivals[i];
    assert BalancerWired(g.topo, a.lb);
    var g0 := g.(now := a.at, arrivals := RemoveAt(g.arrivals, i));
    AdvanceLittle(g, g0, b);
    var l := g.balancers[a.lb];
    Accounting.InputStamps(l, a.task, a.at, pick);
    if l.cfg.policy != B.Push {
      InputGap(l, a.task, a.at, pick);
    }
    BalancerLittle(g0, a.lb, B.Input(l, a.task, a.at, pick), b);
  }

  lemma PulledLittle(g: Cluster, g0: Cluster, h: nat, pull: PullRequest, b: nat)
    requires LittleAt(g0, b) && LittleAt(g, h) && g0.balancers == g.balancers && g0.now == g.now
    requires g.balancers[h].Valid() && g.balancers[h].cfg.lbId == h && pull.serverIdx < |g.balancers[h].localInflight|
    requires !g.balancers[h].cfg.preserveMetadata && g.balancers[h].cfg.policy != B.Push
    requires B.Pull(g.balancers[h], pull, g.now).Fulfilled?
    ensures LittleAt(AfterBalancer(g0, h, B.Pull(g.balancers[h], pull, g.now).effects), b)
  {
    Accounting.PullStamps(g.balancers[h], pull, g.now);
    PullGap(g.balancers[h], pull, g.now);
    BalancerLittle(g0, h, B.Pull(g.balancers[h], pull, g.now).effects, b);
  }

  lemma PullLittle(g: Cluster, i: nat, b: nat)
    requires WellFormed(g) && Plain(g.topo) && LittleOk(g) && i < |g.pulls| && b < |g.balancers|
    ensures LittleAt(PullDelivered(g, i), b)
  {
    var m := g.pulls[i];
    assert PullAt(g.topo, m) && BalancerWired(g.topo, m.lb) && LittleAt(g, b) && LittleAt(g, m.lb);
    if B.Pull(g.balancers[m.lb], m.pull, g.now).Fulfilled? {
      PulledLittle(g, g.(pulls := RemoveAt(g.pulls, i)), m.lb, m.pull, b);
    }
  }

  lemma ReleaseLittle(g: Cluster, i: nat, b: nat)
    requires WellFormed(g) && LittleAt(g, b) && i < |g.releases|
    ensures LittleAt(ReleaseDelivered(g, i), b)
  {
    var m := g.releases[i];
    assert ReleaseAt(g.topo, m);
    DispatchedAfterBalancer(g.(releases := RemoveAt(g.releases, i)), m.lb, B.Start(B.Release(g.balancers[m.lb], m.server)),
                            Waited(b));
  }

  lemma ServerLittle(g: Cluster, step: Step, b: nat)
    requires WellFormed(g) && Enabled(g, step) && LittleAt(g, b) && Jobs.AtAServer(step)
    ensures LittleAt(Next(g, step), b)
  {
    Jobs.ServerKeepsDispatched(g, step, Waited(b));
    Timing.NextTime(g, step);
    AdvanceLittle(g, Next(g, step), b);
  }

  lemma NothingEvicted(g: Cluster)
    requires WellFormed(g) && Plain(g.topo)
    ensures g.evicted == [] && g.shed == []
  {
    assert !ExpressLb(g.topo) && !Sheds(g.topo);
    if g.evicted != [] {
      Wiring.EvictionNeedsExpress(g);
    }
    if g.shed != [] {
      Wiring.ShedNeedsShedding(g);
    }
  }

  lemma NextLittleAt(g: Cluster, step: Step, b: nat)
    requires WellFormed(g) && Plain(g.topo) && Enabled(g, step) && Timing.Timely(g) && LittleOk(g) && b < |g.balancers|
    ensures LittleAt(Next(g, step), b)
  {
    assert LittleAt(g, b);
    match step
    case Arrive(i, pick) => ArriveLittle(g, i, pick, b);
    case DeliverPull(i) => PullLittle(g, i, b);
    case DeliverRelease(i) => ReleaseLittle(g, i, b);
    case DeliverEvicted(i, _) => NothingEvicted(g);
    case DeliverShed(i, _) => NothingEvicted(g);
    case _ => ServerLittle(g, step, b);
  }

  lemma NextKeepsLittle(g: Cluster, step: Step)
    requires WellFormed(g) && Plain(g.topo) && Enabled(g, step) && Timing.Timely(g) && LittleOk(g)
    ensures LittleOk(Next(g, step))
  {
    forall b: nat | b < |Next(g, step).balancers| ensures LittleAt(Next(g, step), b) {
      NextLittleAt(g, step, b);
    }
  }

  lemma InitialLittle(g: Cluster)
    requires Initial(g)
    ensures LittleOk(g)
  {
    forall b: nat | b < |g.balancers| ensures LittleAt(g, b) {
      assert FreshBalancer(g.balancers[b]);
      SumZero(g.servers, Accounting.QueuedAt(Waited(b)));
    }
  }

  /** Once its queue is empty and its tasks are done, the area is the sum of `dispatchedAt - start` over them. */
  lemma IdentityWhenDone(g: Cluster, b: nat)
    requires LittleOk(g) && b < |g.balancers| && g.balancers[b].cfg.policy != B.Push
    requires Quiet(g) && g.completions == [] && g.balancers[b].queue == []
    requires forall s :: 0 <= s < |g.servers| ==> g.servers[s].queue == []
    ensures Occ.IntegralAt(g.balancers[b].occupancy, g.now) == Sum(g.done, OfTask(Waited(b)))
  {
    assert LittleAt(g, b);
    SumZero(g.servers, Accounting.QueuedAt(Waited(b)));
  }
}
