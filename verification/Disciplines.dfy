/** Queue disciplines of the balancers. A centralized balancer never holds both queued tasks and waiting servers,
    and hands out its tasks, and its waiting servers, strictly in order. */
module Disciplines {
  import opened Domain
  import opened Sums
  import opened Clusters
  import B = Balancers

  /** The queue holds consecutive identifiers, the newest just below the next one to be given out. So exactly the
      tasks numbered below the head of the queue have left it. */
  ghost predicate Consecutive(l: B.Balancer)
  {
    |l.queue| <= l.nextTaskId
    && forall i :: 0 <= i < |l.queue| ==> l.queue[i].taskId == l.nextTaskId - |l.queue| + i
  }

  ghost predicate Disciplined(l: B.Balancer)
  {
    match l.cfg.policy
    case Centralized => (l.queue == [] || l.waiting == []) && Consecutive(l)
    case AmphiQueue => l.waiting == [] && (l.cfg.unbound ==> Consecutive(l))
    case Push => l.queue == [] && l.waiting == []
  }

  ghost predicate DisciplineOk(g: Cluster)
  {
    forall b :: 0 <= b < |g.balancers| ==> Disciplined(g.balancers[b])
  }

  /** Tasks sent and still queued, in one line: what has been sent came first. */
  function Line(fx: B.Effects): seq<nat>
  {
    SentIds(fx.out.tasks) + B.Ids(fx.balancer.queue)
  }

  function SentIds(tasks: seq<TaskMsg>): (ids: seq<nat>)
    ensures |ids| == |tasks|
  {
    seq(|tasks|, i requires 0 <= i < |tasks| => tasks[i].task.taskId)
  }

  /** Servers that have been handed a task and those that still wait, in one line. */
  function Turns(fx: B.Effects): seq<nat>
  {
    seq(|fx.out.tasks|, i requires 0 <= i < |fx.out.tasks| => fx.out.tasks[i].server) + fx.balancer.waiting
  }

  lemma {:induction false} WaitingInOrder(fx: B.Effects, now: Time)
    requires fx.Valid()
    ensures var r := B.DispatchWaiting(fx, now);
            && Line(r) == Line(fx) && Turns(r) == Turns(fx)
            && (r.balancer.queue == [] || r.balancer.waiting == [])
            && r.balancer.nextTaskId == fx.balancer.nextTaskId
    decreases |fx.balancer.waiting|
  {
    var l := fx.balancer;
    if l.waiting != [] && l.queue != [] {
      var next := B.DispatchHead(fx.(balancer := l.(waiting := l.waiting[1..])), l.waiting[0], now);
      assert Line(next) == Line(fx);
      assert Turns(next) == Turns(fx);
      WaitingInOrder(next, now);
    }
  }

  /** A centralized balancer sends the oldest tasks first, each to the server that has waited longest, and stops
      only when it has no task or no waiting server left. */
  lemma InputInOrder(l: B.Balancer, task: Task, now: Time, pick: nat)
    requires l.Valid() && pick < |l.cfg.serverIndices| && l.cfg.policy == B.Centralized
    ensures var r := B.Input(l, task, now, pick);
            && Line(r) == B.Ids(l.queue) + [l.nextTaskId] && Turns(r) == l.waiting
            && (r.balancer.queue == [] || r.balancer.waiting == [])
            && r.balancer.nextTaskId == l.nextTaskId + 1
  {
    var start := B.Start(B.Enqueued(l, task, now));
    WaitingInOrder(start, now);
    assert Line(start) == B.Ids(l.queue) + [l.nextTaskId];
    assert Turns(start) == l.waiting;
  }

  lemma PullInOrder(l: B.Balancer, pull: PullRequest, now: Time)
    requires l.Valid() && pull.serverIdx < |l.localInflight| && l.cfg.policy == B.Centralized && Disciplined(l)
    ensures var r := B.Pull(l, pull, now).effects;
            Line(r) == B.Ids(l.queue) && Turns(r) == l.waiting + [pull.serverIdx]
  {
    var r := B.Pull(l, pull, now).effects;
    assert Line(r) == B.Ids(l.queue);
    assert Turns(r) == l.waiting + [pull.serverIdx];
  }

  lemma LineConsecutive(fx: B.Effects, next: nat)
    requires |Line(fx)| <= next && fx.balancer.nextTaskId == next
    requires forall i :: 0 <= i < |Line(fx)| ==> Line(fx)[i] == next - |Line(fx)| + i
    ensures Consecutive(fx.balancer)
  {
    var sent, l := SentIds(fx.out.tasks), fx.balancer;
    forall i | 0 <= i < |l.queue| ensures l.queue[i].taskId == next - |l.queue| + i {
      assert Line(fx)[|sent| + i] == l.queue[i].taskId;
    }
  }

  lemma InputDisciplined(l: B.Balancer, task: Task, now: Time, pick: nat)
    requires l.Valid() && pick < |l.cfg.serverIndices| && Disciplined(l)
    ensures Disciplined(B.Input(l, task, now, pick).balancer)
  {
    if l.cfg.policy == B.Centralized {
      InputInOrder(l, task, now, pick);
      LineConsecutive(B.Input(l, task, now, pick), l.nextTaskId + 1);
    }
  }

  lemma PullDisciplined(l: B.Balancer, pull: PullRequest, now: Time)
    requires l.Valid() && pull.serverIdx < |l.localInflight| && Disciplined(l) && l.cfg.policy != B.Push
    ensures B.Pull(l, pull, now).Fulfilled? ==> Disciplined(B.Pull(l, pull, now).effects.balancer)
  {
  }

  lemma PulledDisciplined(g: Cluster, i: nat)
    requires WellFormed(g) && DisciplineOk(g) && i < |g.pulls|
    ensures DisciplineOk(PullDelivered(g, i))
  {
    assert PullAt(g.topo, g.pulls[i]);
    PullDisciplined(g.balancers[g.pulls[i].lb], g.pulls[i].pull, g.now);
  }

  lemma InputKeepsDiscipline(g: Cluster, g0: Cluster, b: nat, task: Task, now: Time, pick: nat)
    requires WellFormed(g) && DisciplineOk(g) && CanPick(g, b, pick) && g0.balancers == g.balancers
    ensures DisciplineOk(AfterBalancer(g0, b, B.Input(g.balancers[b], task, now, pick)))
  {
    InputDisciplined(g.balancers[b], task, now, pick);
  }

  lemma NextKeepsDiscipline(g: Cluster, step: Step)
    requires WellFormed(g) && Enabled(g, step) && DisciplineOk(g)
    ensures DisciplineOk(Next(g, step))
  {
    match step
    case Arrive(i, pick) =>
      var a := g.arrivals[i];
      InputKeepsDiscipline(g, g.(now := a.at, arrivals := RemoveAt(g.arrivals, i)), a.lb, a.task, a.at, pick);
    case DeliverEvicted(i, pick) =>
      InputKeepsDiscipline(g, g.(evicted := RemoveAt(g.evicted, i)), g.topo.expressLb, g.evicted[i], g.now, pick);
    case DeliverShed(i, pick) =>
      InputKeepsDiscipline(g, g.(shed := RemoveAt(g.shed, i)), g.shed[i].lb, g.shed[i].task, g.now, pick);
    case DeliverPull(i) => PulledDisciplined(g, i);
    case _ =>
  }

  /** A first-come balancer dispatches task after task in the order of their arrival numbers, without a gap. */
  lemma DispatchInArrivalOrder(l: B.Balancer, pull: PullRequest, now: Time)
    requires l.Valid() && pull.serverIdx < |l.localInflight| && Disciplined(l)
    requires l.cfg.policy == B.Centralized || (l.cfg.policy == B.AmphiQueue && l.cfg.unbound)
    ensures var r := B.Pull(l, pull, now);
            r.Fulfilled? && r.effects.out.tasks != [] ==>
              && SentIds(r.effects.out.tasks) == [l.nextTaskId - |l.queue|]
              && |r.effects.balancer.queue| == |l.queue| - 1
  {
  }

  lemma InitialDiscipline(g: Cluster)
    requires Initial(g)
    ensures DisciplineOk(g)
  {
    forall b | 0 <= b < |g.balancers| ensures Disciplined(g.balancers[b]) {
      assert FreshBalancer(g.balancers[b]);
    }
  }
}
