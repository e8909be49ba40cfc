/** What each handler does to the tasks that pass through it: no handler loses or duplicates a task.
    A measure weighs a task by the parts of it that no handler but the dispatching balancer rewrites. */
module Flows {
  import opened Domain
  import opened Sums
  import B = Balancers
  import S = Servers

  datatype Identity = Identity(lbId: nat, origin: nat, start: Time, duration: nat, dispatchedAt: Option<Time>)

  type Measure = Identity -> int

  function IdentityOf(t: Task): Identity
  {
    Identity(t.lbId, t.originServer, t.start, t.duration, t.dispatchedAt)
  }

  function OfTask(f: Measure): Task -> int
  {
    (t: Task) => f(IdentityOf(t))
  }

  function OfMsg(f: Measure): TaskMsg -> int
  {
    (m: TaskMsg) => f(IdentityOf(m.task))
  }

  function OfShed(f: Measure): ShedMsg -> int
  {
    (m: ShedMsg) => f(IdentityOf(m.task))
  }

  function OfCompletion(f: Measure): S.Completion -> int
  {
    (c: S.Completion) => f(IdentityOf(c.task))
  }

  function ToServer(s: nat): TaskMsg -> int
  {
    (m: TaskMsg) => if m.server == s then 1 else 0
  }

  /** A measure that a dispatch leaves alone. Every dispatch rewrites the dispatch time; unless it preserves
      the client's metadata it rewrites the owner and origin too. */
  ghost predicate Blind(f: Measure, preserve: bool)
  {
    forall x: Identity, y: Identity ::
      x.start == y.start && x.duration == y.duration && (preserve ==> x.lbId == y.lbId && x.origin == y.origin)
      ==> f(x) == f(y)
  }

  // Balancers

  ghost function AtBalancer(fx: B.Effects, f: Measure): int
  {
    Sum(fx.balancer.queue, OfTask(f)) + Sum(fx.out.tasks, OfMsg(f))
  }

  lemma StampKeepsMeasure(l: B.Balancer, server: nat, t: Task, now: Time, f: Measure)
    requires Blind(f, l.cfg.preserveMetadata)
    ensures f(IdentityOf(B.Stamped(l, server, t, now))) == f(IdentityOf(t))
  {
    assert f(IdentityOf(B.Stamped(l, server, t, now))) == f(IdentityOf(t));
  }

  lemma DispatchFlow(fx: B.Effects, server: nat, task: Task, now: Time, f: Measure)
    requires fx.Valid() && server < |fx.balancer.localInflight|
    requires Blind(f, fx.balancer.cfg.preserveMetadata)
    ensures AtBalancer(B.DispatchTo(fx, server, task, now), f) == AtBalancer(fx, f) + f(IdentityOf(task))
  {
    StampKeepsMeasure(fx.balancer, server, task, now, f);
    SumAppend(fx.out.tasks, TaskMsg(server, B.Stamped(fx.balancer, server, task, now)), OfMsg(f));
  }

  lemma HeadFlow(fx: B.Effects, server: nat, now: Time, f: Measure)
    requires fx.Valid() && server < |fx.balancer.localInflight| && fx.balancer.queue != []
    requires Blind(f, fx.balancer.cfg.preserveMetadata)
    ensures AtBalancer(B.DispatchHead(fx, server, now), f) == AtBalancer(fx, f)
  {
    SumRemove(fx.balancer.queue, 0, OfTask(f));
    DispatchFlow(fx.(balancer := B.Dequeued(fx.balancer, 0, now)), server, fx.balancer.queue[0], now, f);
  }

  lemma {:induction false} WaitingFlow(fx: B.Effects, now: Time, f: Measure)
    requires fx.Valid() && Blind(f, fx.balancer.cfg.preserveMetadata)
    ensures AtBalancer(B.DispatchWaiting(fx, now), f) == AtBalancer(fx, f)
    decreases |fx.balancer.waiting|
  {
    var l := fx.balancer;
    if l.waiting != [] && l.queue != [] {
      var popped := fx.(balancer := l.(waiting := l.waiting[1..]));
      HeadFlow(popped, l.waiting[0], now, f);
      WaitingFlow(B.DispatchHead(popped, l.waiting[0], now), now, f);
    }
  }

  /** A task that enters a balancer is queued or dispatched, once, and nothing else is. */
  lemma InputFlow(l: B.Balancer, task: Task, now: Time, pick: nat, f: Measure)
    requires l.Valid() && pick < |l.cfg.serverIndices| && Blind(f, l.cfg.preserveMetadata)
    ensures AtBalancer(B.Input(l, task, now, pick), f) == Sum(l.queue, OfTask(f)) + f(IdentityOf(task))
  {
    var queued := task.(taskId := l.nextTaskId);
    SumAppend(l.queue, queued, OfTask(f));
    assert IdentityOf(queued) == IdentityOf(task);
    match l.cfg.policy
    case Centralized => WaitingFlow(B.Start(B.Enqueued(l, task, now)), now, f);
    case AmphiQueue =>
    case Push => DispatchFlow(B.Start(l), l.cfg.serverIndices[pick], task, now, f);
  }

  /** A pull moves one queued task into transit, or none. */
  lemma PullFlow(l: B.Balancer, pull: PullRequest, now: Time, f: Measure)
    requires l.Valid() && pull.serverIdx < |l.localInflight| && Blind(f, l.cfg.preserveMetadata)
    ensures var r := B.Pull(l, pull, now); r.Fulfilled? ==> AtBalancer(r.effects, f) == Sum(l.queue, OfTask(f))
  {
    if l.cfg.policy == B.AmphiQueue {
      var i := B.PullIndex(l, pull);
      if i < |l.queue| {
        SumRemove(l.queue, i, OfTask(f));
        StampKeepsMeasure(l, pull.serverIdx, l.queue[i], now, f);
        SumOne(TaskMsg(pull.serverIdx, B.Stamped(l, pull.serverIdx, l.queue[i], now)), OfMsg(f));
        assert B.Fulfil(l, pull, i, now).out.tasks
            == [TaskMsg(pull.serverIdx, B.Stamped(l, pull.serverIdx, l.queue[i], now))];
      }
    } else if l.queue != [] {
      HeadFlow(B.Start(l), pull.serverIdx, now, f);
    }
  }

  // A balancer's inflight table counts what it sends.

  ghost function Outstanding(fx: B.Effects, s: nat): int
    requires s < |fx.balancer.localInflight|
  {
    fx.balancer.localInflight[s] - Sum(fx.out.tasks, ToServer(s))
  }

  lemma DispatchOutstanding(fx: B.Effects, server: nat, task: Task, now: Time, s: nat)
    requires fx.Valid() && server < |fx.balancer.localInflight| && s < |fx.balancer.localInflight|
    ensures Outstanding(B.DispatchTo(fx, server, task, now), s) == Outstanding(fx, s)
  {
    SumAppend(fx.out.tasks, TaskMsg(server, B.Stamped(fx.balancer, server, task, now)), ToServer(s));
  }

  lemma {:induction false} WaitingOutstanding(fx: B.Effects, now: Time, s: nat)
    requires fx.Valid() && s < |fx.balancer.localInflight|
    ensures |B.DispatchWaiting(fx, now).balancer.localInflight| == |fx.balancer.localInflight|
    ensures Outstanding(B.DispatchWaiting(fx, now), s) == Outstanding(fx, s)
    decreases |fx.balancer.waiting|
  {
    var l := fx.balancer;
    if l.waiting != [] && l.queue != [] {
      var popped := fx.(balancer := l.(waiting := l.waiting[1..]));
      DispatchOutstanding(popped.(balancer := B.Dequeued(popped.balancer, 0, now)), l.waiting[0], l.queue[0], now, s);
      WaitingOutstanding(B.DispatchHead(popped, l.waiting[0], now), now, s);
    }
  }

  /** Whatever a balancer does with a task, its inflight count for a server rises by exactly the number of
      tasks it sends there. */
  lemma InputOutstanding(l: B.Balancer, task: Task, now: Time, pick: nat, s: nat)
    requires l.Valid() && pick < |l.cfg.serverIndices| && s < |l.localInflight|
    ensures |B.Input(l, task, now, pick).balancer.localInflight| == |l.localInflight|
    ensures Outstanding(B.Input(l, task, now, pick), s) == l.localInflight[s]
  {
    match l.cfg.policy
    case Centralized => WaitingOutstanding(B.Start(B.Enqueued(l, task, now)), now, s);
    case AmphiQueue =>
    case Push => DispatchOutstanding(B.Start(l), l.cfg.serverIndices[pick], task, now, s);
  }

  lemma PullOutstanding(l: B.Balancer, pull: PullRequest, now: Time, s: nat)
    requires l.Valid() && pull.serverIdx < |l.localInflight| && s < |l.localInflight|
    ensures var r := B.Pull(l, pull, now);
            r.Fulfilled? ==> |r.effects.balancer.localInflight| == |l.localInflight|
                             && Outstanding(r.effects, s) == l.localInflight[s]
  {
    var r := B.Pull(l, pull, now);
    if r.Fulfilled? && r.effects.out.tasks != [] {
      SumOne(r.effects.out.tasks[0], ToServer(s));
      assert r.effects.out.tasks == [r.effects.out.tasks[0]];
    }
  }

  // Servers

  /** Tasks at a server and leaving it. A shed task may weigh differently from a queued one, the difference
      being carried by the release that shedding sends. */
  ghost function AtServer(fx: S.ServerEffects, f: Measure, h: Measure, r: ReleaseMsg -> int): int
  {
    Sum(fx.server.queue, OfTask(f)) + Sum(fx.out.completions, OfCompletion(f)) + Sum(fx.out.evicted, OfTask(f))
    + Sum(fx.out.shed, OfShed(h)) + Sum(fx.out.releases, r)
  }

  ghost predicate ShedBalanced(t: Task, index: nat, f: Measure, h: Measure, r: ReleaseMsg -> int)
  {
    f(IdentityOf(t)) == h(IdentityOf(t)) + r(ReleaseMsg(t.lbId, index))
  }

  lemma EvictFlow(fx: S.ServerEffects, i: nat, now: Time, f: Measure, h: Measure, r: ReleaseMsg -> int)
    requires i < |fx.server.queue|
    ensures AtServer(S.EvictAt(fx, i, now), f, h, r) == AtServer(fx, f, h, r)
  {
    var t := fx.server.queue[i];
    SumRemove(fx.server.queue, i, OfTask(f));
    SumAppend(fx.out.evicted, t.(evictedAt := Some(now)), OfTask(f));
    assert IdentityOf(t.(evictedAt := Some(now))) == IdentityOf(t);
  }

  lemma ShedFlow(fx: S.ServerEffects, i: nat, now: Time, f: Measure, h: Measure, r: ReleaseMsg -> int)
    requires i < |fx.server.queue| && ShedBalanced(fx.server.queue[i], fx.server.cfg.index, f, h, r)
    ensures AtServer(S.ShedAt(fx, i, now), f, h, r) == AtServer(fx, f, h, r)
  {
    var t := fx.server.queue[i];
    var u := t.(shedAt := Some(now));
    SumRemove(fx.server.queue, i, OfTask(f));
    SumAppend(fx.out.shed, ShedMsg(u.lbId, u), OfShed(h));
    SumAppend(fx.out.releases, ReleaseMsg(u.lbId, fx.server.cfg.index), r);
    assert IdentityOf(u) == IdentityOf(t);
  }

  lemma BeginFlow(fx: S.ServerEffects, task: Task, now: Time, f: Measure, h: Measure, r: ReleaseMsg -> int)
    ensures AtServer(S.BeginService(fx, task, now), f, h, r) == AtServer(fx, f, h, r) + f(IdentityOf(task))
  {
    var u := task.(serviceStartedAt := Some(now));
    SumAppend(fx.out.completions, S.Completion(now + task.duration, fx.server.cfg.index, u), OfCompletion(f));
    assert IdentityOf(u) == IdentityOf(task);
  }

  lemma {:induction false} DrainFlow(fx: S.ServerEffects, now: Time, f: Measure, h: Measure, r: ReleaseMsg -> int)
    ensures AtServer(S.DrainQueue(fx, now), f, h, r) == AtServer(fx, f, h, r)
    decreases |fx.server.queue|
  {
    var v := fx.server;
    if v.inFlight < v.cfg.maxConcurrency && v.queue != [] {
      SumRemove(v.queue, 0, OfTask(f));
      var taken := S.TakeHead(fx, now);
      assert AtServer(taken, f, h, r) == AtServer(fx, f, h, r) - f(IdentityOf(v.queue[0]));
      BeginFlow(taken, v.queue[0], now, f, h, r);
      DrainFlow(S.BeginService(taken, v.queue[0], now), now, f, h, r);
    }
  }

  lemma EvictionFlow(fx: S.ServerEffects, start: Time, now: Time, f: Measure, h: Measure, r: ReleaseMsg -> int)
    requires fx.server.queue != []
    ensures AtServer(S.ApplyEviction(fx, start, now), f, h, r) == AtServer(fx, f, h, r)
  {
    EvictFlow(fx, |fx.server.queue| - 1, now, f, h, r);
  }

  lemma SheddingFlow(fx: S.ServerEffects, start: Time, now: Time, f: Measure, h: Measure, r: ReleaseMsg -> int)
    requires fx.server.cfg.shedding.Some? ==>
               fx.server.queue != [] && ShedBalanced(fx.server.queue[|fx.server.queue| - 1], fx.server.cfg.index, f, h, r)
    ensures AtServer(S.ApplyShedding(fx, start, now), f, h, r) == AtServer(fx, f, h, r)
  {
    if fx.server.cfg.shedding.Some? {
      ShedFlow(fx, |fx.server.queue| - 1, now, f, h, r);
    }
  }

  /** A task that enters a server starts, waits, is evicted or is shed: exactly one of these. */
  lemma ServerInputFlow(v: S.ServerState, task: Task, now: Time, f: Measure, h: Measure, r: ReleaseMsg -> int)
    requires v.Valid() && (v.cfg.mode == S.Push ==> ShedBalanced(task, v.cfg.index, f, h, r))
    ensures AtServer(S.Input(v, task, now), f, h, r) == Sum(v.queue, OfTask(f)) + f(IdentityOf(task))
  {
    if v.cfg.mode == S.AmphiQueue {
      BeginFlow(S.Begin(v.(pendingPulls := SaturatingSub(v.pendingPulls, 1))), task, now, f, h, r);
    } else if v.cfg.mode == S.Centralized || v.inFlight < v.cfg.maxConcurrency {
      BeginFlow(S.Begin(v), task, now, f, h, r);
    } else {
      SumAppend(v.queue, task, OfTask(f));
      var queued := S.Begin(S.SampleLevel(v.(queue := v.queue + [task]), now));
      EvictionFlow(queued, task.start, now, f, h, r);
      SheddingFlow(S.ApplyEviction(queued, task.start, now), task.start, now, f, h, r);
    }
  }

  /** A completion frees the finished task, whose releases leave the server, and keeps all others. */
  lemma CompleteFlow(v: S.ServerState, task: Task, now: Time, f: Measure, h: Measure, r: ReleaseMsg -> int)
    requires v.inFlight > 0
    ensures AtServer(S.Complete(v, task, now), f, h, r) == Sum(v.queue, OfTask(f)) + Sum(S.ReleasesOf(v, task), r)
  {
    var ended := S.Ended(v, task, now);
    if v.cfg.mode == S.Push {
      DrainFlow(ended, now, f, h, r);
    }
  }

  lemma TimerFlow(v: S.ServerState, start: Time, now: Time, f: Measure, h: Measure, r: ReleaseMsg -> int)
    requires forall i :: 0 <= i < |v.queue| ==> ShedBalanced(v.queue[i], v.cfg.index, f, h, r)
    ensures AtServer(S.EvictTask(v, start, now), f, h, r) == Sum(v.queue, OfTask(f))
    ensures AtServer(S.ShedTask(v, start, now), f, h, r) == Sum(v.queue, OfTask(f))
  {
    var i := S.TaskPosition(v.queue, start);
    if i < |v.queue| {
      EvictFlow(S.Begin(v.(pendingEvictions := S.WithoutTimers(v.pendingEvictions, start))), i, now, f, h, r);
      ShedFlow(S.Begin(v.(pendingSheds := S.WithoutTimers(v.pendingSheds, start))), i, now, f, h, r);
    }
  }
}
