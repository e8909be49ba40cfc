/** Server slots. In every mode a server runs at most `maxConcurrency` tasks, and its counter is the number of
    running services. In the pull modes each slot is one token: pulled, waited for, promised, or running. */
module Slots {
  import opened Domain
  import opened Sums
  import opened Clusters
  import opened Flows
  import B = Balancers
  import S = Servers

  function RunningAt(s: nat): S.Completion -> int
  {
    (c: S.Completion) => if c.server == s then 1 else 0
  }

  function PulledBy(s: nat): PullMsg -> int
  {
    (m: PullMsg) => if m.pull.serverIdx == s then 1 else 0
  }

  function Is(s: nat): nat -> int
  {
    (t: nat) => if t == s then 1 else 0
  }

  function WaitingFor(s: nat): B.Balancer -> int
  {
    (l: B.Balancer) => Sum(l.waiting, Is(s))
  }

  /** A server's slots that are promised to somebody but not running: initial pull events, pulls in transit,
      entries in a balancer's list of waiting servers, and tasks in transit. */
  ghost function Promised(g: Cluster, s: nat): int
  {
    Sum(g.initialPulls, StartsAt(s)) + Sum(g.pulls, PulledBy(s)) + Sum(g.balancers, WaitingFor(s))
    + Sum(g.tasks, ToServer(s))
  }

  ghost predicate SlotsAt(g: Cluster, s: nat)
  {
    && s < |g.servers|
    && g.servers[s].inFlight == Sum(g.completions, RunningAt(s))
    && Within(g.servers[s], Promised(g, s))
  }

  /** A server never oversubscribes its slots, counting those it has promised, and keeps tasks or intents
      waiting only while every slot is taken. */
  ghost predicate Within(v: S.ServerState, promised: int)
  {
    && v.inFlight <= v.cfg.maxConcurrency
    && (match v.cfg.mode
        case Push => v.queue != [] ==> v.inFlight == v.cfg.maxConcurrency
        case Centralized => promised + v.inFlight == v.cfg.maxConcurrency
        case AmphiQueue =>
          && v.pendingPulls == promised
          && v.inFlight + v.pendingPulls <= v.cfg.maxConcurrency
          && (v.intents != [] ==> v.inFlight + v.pendingPulls == v.cfg.maxConcurrency))
  }

  ghost predicate SlotsOk(g: Cluster)
  {
    forall s: nat :: s < |g.servers| ==> SlotsAt(g, s)
  }

  // Balancers

  ghost function WaitingAndSent(fx: B.Effects, s: nat): int
  {
    Sum(fx.balancer.waiting, Is(s)) + Sum(fx.out.tasks, ToServer(s))
  }

  lemma {:induction false} WaitingKept(fx: B.Effects, now: Time, s: nat)
    requires fx.Valid()
    ensures WaitingAndSent(B.DispatchWaiting(fx, now), s) == WaitingAndSent(fx, s)
    decreases |fx.balancer.waiting|
  {
    var l := fx.balancer;
    if l.waiting != [] && l.queue != [] {
      SumRemove(l.waiting, 0, Is(s));
      assert RemoveAt(l.waiting, 0) == l.waiting[1..];
      var popped := fx.(balancer := l.(waiting := l.waiting[1..]));
      var task := B.Stamped(B.Dequeued(popped.balancer, 0, now), l.waiting[0], l.queue[0], now);
      SumAppend(fx.out.tasks, TaskMsg(l.waiting[0], task), ToServer(s));
      WaitingKept(B.DispatchHead(popped, l.waiting[0], now), now, s);
    }
  }

  /** A balancer hands a task to a pulling server only in exchange for that server's waiting entry. */
  lemma InputKeepsWaiting(p: Topology, l: B.Balancer, b: nat, task: Task, now: Time, pick: nat, s: nat)
    requires Wired(p) && b < |p.balancers| && BalancerAt(p, b, l) && pick < |l.cfg.serverIndices|
    requires s < |p.servers| && p.servers[s].mode != S.Push
    ensures WaitingAndSent(B.Input(l, task, now, pick), s) == Sum(l.waiting, Is(s))
  {
    assert BalancerWired(p, b);
    match l.cfg.policy
    case Centralized => WaitingKept(B.Start(B.Enqueued(l, task, now)), now, s);
    case AmphiQueue =>
    case Push =>
      var server := l.cfg.serverIndices[pick];
      SumOne(TaskMsg(server, B.Stamped(l, server, task, now)), ToServer(s));
      assert B.Input(l, task, now, pick).out.tasks == [TaskMsg(server, B.Stamped(l, server, task, now))];
  }

  lemma PullTakesToken(l: B.Balancer, pull: PullRequest, now: Time, s: nat)
    requires l.Valid() && pull.serverIdx < |l.localInflight|
    ensures var r := B.Pull(l, pull, now);
            r.Fulfilled? ==> WaitingAndSent(r.effects, s) == Sum(l.waiting, Is(s)) + Is(s)(pull.serverIdx)
  {
    var r := B.Pull(l, pull, now);
    if r.Fulfilled? {
      if r.effects.out.tasks == [] {
        SumAppend(l.waiting, pull.serverIdx, Is(s));
      } else {
        SumOne(r.effects.out.tasks[0], ToServer(s));
        assert r.effects.out.tasks == [r.effects.out.tasks[0]];
      }
    }
  }

  lemma PromisedAfterBalancer(g: Cluster, b: nat, fx: B.Effects, s: nat)
    requires b < |g.balancers|
    ensures Promised(AfterBalancer(g, b, fx), s)
         == Promised(g, s) - Sum(g.balancers[b].waiting, Is(s)) + WaitingAndSent(fx, s)
  {
    SumUpdate(g.balancers, b, fx.balancer, WaitingFor(s));
    SumConcat(g.tasks, fx.out.tasks, ToServer(s));
  }

  lemma BalancerKeepsSlots(g: Cluster, g0: Cluster, b: nat, fx: B.Effects, s: nat)
    requires SlotsAt(g, s) && b < |g0.balancers| && g0.servers == g.servers && g0.completions == g.completions
    requires g.servers[s].cfg.mode != S.Push ==>
               Promised(g0, s) - Sum(g0.balancers[b].waiting, Is(s)) + WaitingAndSent(fx, s) == Promised(g, s)
    ensures SlotsAt(AfterBalancer(g0, b, fx), s)
  {
    PromisedAfterBalancer(g0, b, fx, s);
  }

  // Servers

  /** Everything a server schedules or pulls is its own. */
  ghost predicate Own(fx: S.ServerEffects, s: nat)
  {
    && (forall i :: 0 <= i < |fx.out.completions| ==> fx.out.completions[i].server == s)
    && (forall i :: 0 <= i < |fx.out.pulls| ==> fx.out.pulls[i].pull.serverIdx == s)
  }

  /** A handler's balance sheet: services started against the slot counter, and no slot oversubscribed. */
  ghost predicate Started(v: S.ServerState, fx: S.ServerEffects, ended: nat)
  {
    && fx.server.cfg == v.cfg && Own(fx, v.cfg.index)
    && |fx.out.completions| + v.inFlight == fx.server.inFlight + ended
  }

  lemma {:induction false} DrainStarts(v: S.ServerState, fx: S.ServerEffects, now: Time, ended: nat)
    requires Started(v, fx, ended) && fx.server.inFlight <= v.cfg.maxConcurrency
    ensures var r := S.DrainQueue(fx, now);
            && Started(v, r, ended) && r.server.inFlight <= v.cfg.maxConcurrency
            && r.out.pulls == fx.out.pulls
            && (r.server.queue != [] ==> r.server.inFlight == v.cfg.maxConcurrency)
    decreases |fx.server.queue|
  {
    var s := fx.server;
    if s.inFlight < s.cfg.maxConcurrency && s.queue != [] {
      DrainStarts(v, S.BeginService(S.TakeHead(fx, now), s.queue[0], now), now, ended);
    }
  }

  /** A delivered task takes the slot that was promised to it; only a push server lets it wait. */
  lemma InputStarts(v: S.ServerState, task: Task, now: Time, promised: int)
    requires v.Valid() && Within(v, promised) && (v.cfg.mode != S.Push ==> promised > 0)
    ensures var r := S.Input(v, task, now);
            Started(v, r, 0) && r.out.pulls == [] && Within(r.server, promised - 1)
  {
    if v.cfg.mode == S.Push && v.inFlight >= v.cfg.maxConcurrency {
      var queued := S.Begin(S.SampleLevel(v.(queue := v.queue + [task]), now));
      EvictionStarts(v, queued, task.start, now);
      SheddingStarts(v, S.ApplyEviction(queued, task.start, now), task.start, now);
    }
  }

  ghost predicate Idle(v: S.ServerState, fx: S.ServerEffects)
  {
    && Started(v, fx, 0) && fx.out.pulls == [] && fx.server.intents == v.intents
    && fx.server.inFlight == v.inFlight && fx.server.pendingPulls == v.pendingPulls
  }

  lemma EvictionStarts(v: S.ServerState, fx: S.ServerEffects, start: Time, now: Time)
    requires fx.server.queue != [] && Idle(v, fx)
    ensures Idle(v, S.ApplyEviction(fx, start, now))
  {
  }

  lemma SheddingStarts(v: S.ServerState, fx: S.ServerEffects, start: Time, now: Time)
    requires fx.server.cfg.shedding.Some? ==> fx.server.queue != []
    requires Idle(v, fx)
    ensures Idle(v, S.ApplyShedding(fx, start, now))
  {
  }

  lemma TimerStarts(v: S.ServerState, e: S.TimerEvent)
    ensures Idle(v, TimerEffects(v, e))
    ensures forall promised :: Within(v, promised) ==> Within(TimerEffects(v, e).server, promised)
  {
  }

  /** One pull for one reservation, and a queue of intents survives only at a server without a free slot. */
  lemma IntentsReserve(v: S.ServerState, fx: S.ServerEffects, promised: int)
    requires fx.server.cfg == v.cfg && v.cfg.mode == S.AmphiQueue && Own(fx, v.cfg.index)
    requires fx.server.pendingPulls == promised + |fx.out.pulls|
    requires fx.server.inFlight + fx.server.pendingPulls <= v.cfg.maxConcurrency
    requires |fx.server.intents| > 1 ==> fx.server.inFlight + fx.server.pendingPulls + 1 >= v.cfg.maxConcurrency
    requires fx.server.intents != [] ==> fx.server.intents[0].senderId < v.cfg.nBalancers
    ensures var r := S.DrainIntents(fx);
            && r.server.cfg == v.cfg && Own(r, v.cfg.index)
            && r.server.inFlight == fx.server.inFlight && r.out.completions == fx.out.completions
            && Within(r.server, promised + |r.out.pulls|)
  {
  }

  lemma ServerKeepsSlots(g: Cluster, g0: Cluster, t: nat, fx: S.ServerEffects, ended: nat, s: nat)
    requires SlotsAt(g, s) && t < |g0.servers| && g0.servers == g.servers && g0.balancers == g.balancers
    requires g.servers[t].cfg.index == t && Started(g.servers[t], fx, ended)
    requires Sum(g0.completions, RunningAt(s)) == Sum(g.completions, RunningAt(s)) - (if s == t then ended else 0)
    requires s != t ==> Promised(g0, s) == Promised(g, s)
    requires s == t ==> Within(fx.server, Promised(g0, s) + |fx.out.pulls|)
    ensures SlotsAt(AfterServer(g0, t, fx), s)
  {
    SumConcat(g0.completions, fx.out.completions, RunningAt(s));
    SumConcat(g0.pulls, fx.out.pulls, PulledBy(s));
    SumConstant(fx.out.completions, RunningAt(s), if s == t then 1 else 0);
    SumConstant(fx.out.pulls, PulledBy(s), if s == t then 1 else 0);
  }

  // Steps

  lemma PromisedNonNegative(g: Cluster, s: nat)
    ensures Sum(g.initialPulls, StartsAt(s)) >= 0 && Sum(g.pulls, PulledBy(s)) >= 0
    ensures Sum(g.balancers, WaitingFor(s)) >= 0 && Sum(g.tasks, ToServer(s)) >= 0
  {
    SumNonNegative(g.initialPulls, StartsAt(s));
    SumNonNegative(g.pulls, PulledBy(s));
    assert NonNegative(WaitingFor(s)) by {
      forall l ensures WaitingFor(s)(l) >= 0 { SumNonNegative(l.waiting, Is(s)); }
    }
    SumNonNegative(g.balancers, WaitingFor(s));
    SumNonNegative(g.tasks, ToServer(s));
  }

  lemma InputStepSlots(g: Cluster, g0: Cluster, b: nat, task: Task, now: Time, pick: nat, s: nat)
    requires WellFormed(g) && SlotsAt(g, s) && CanPick(g, b, pick)
    requires g0.servers == g.servers && g0.completions == g.completions && g0.balancers == g.balancers
    requires Promised(g0, s) == Promised(g, s)
    ensures SlotsAt(AfterBalancer(g0, b, B.Input(g.balancers[b], task, now, pick)), s)
  {
    if g.servers[s].cfg.mode != S.Push {
      InputKeepsWaiting(g.topo, g.balancers[b], b, task, now, pick, s);
    }
    BalancerKeepsSlots(g, g0, b, B.Input(g.balancers[b], task, now, pick), s);
  }

  lemma ArriveSlots(g: Cluster, i: nat, pick: nat, s: nat)
    requires WellFormed(g) && SlotsAt(g, s) && i < |g.arrivals| && CanPick(g, g.arrivals[i].lb, pick)
    ensures SlotsAt(Arrived(g, i, pick), s)
  {
    var a := g.arrivals[i];
    InputStepSlots(g, g.(now := a.at, arrivals := RemoveAt(g.arrivals, i)), a.lb, a.task, a.at, pick, s);
  }

  lemma EvictedSlots(g: Cluster, i: nat, pick: nat, s: nat)
    requires WellFormed(g) && SlotsAt(g, s) && i < |g.evicted| && CanPick(g, g.topo.expressLb, pick)
    ensures SlotsAt(EvictedDelivered(g, i, pick), s)
  {
    InputStepSlots(g, g.(evicted := RemoveAt(g.evicted, i)), g.topo.expressLb, g.evicted[i], g.now, pick, s);
  }

  lemma ShedSlots(g: Cluster, i: nat, pick: nat, s: nat)
    requires WellFormed(g) && SlotsAt(g, s) && i < |g.shed| && CanPick(g, g.shed[i].lb, pick)
    ensures SlotsAt(ShedDelivered(g, i, pick), s)
  {
    InputStepSlots(g, g.(shed := RemoveAt(g.shed, i)), g.shed[i].lb, g.shed[i].task, g.now, pick, s);
  }

  lemma PullSlots(g: Cluster, i: nat, s: nat)
    requires WellFormed(g) && SlotsAt(g, s) && i < |g.pulls|
    ensures SlotsAt(PullDelivered(g, i), s)
  {
    var m := g.pulls[i];
    assert PullAt(g.topo, m);
    SumRemove(g.pulls, i, PulledBy(s));
    PullTakesToken(g.balancers[m.lb], m.pull, g.now, s);
    var r := B.Pull(g.balancers[m.lb], m.pull, g.now);
    if r.Fulfilled? {
      BalancerKeepsSlots(g, g.(pulls := RemoveAt(g.pulls, i)), m.lb, r.effects, s);
    }
  }

  lemma TaskTakesSlot(g: Cluster, i: nat, s: nat)
    requires i < |g.tasks| && SlotsAt(g, s) && SlotsAt(g, g.tasks[i].server)
    requires g.servers[g.tasks[i].server].Valid() && g.servers[g.tasks[i].server].cfg.index == g.tasks[i].server
    ensures var m := g.tasks[i];
            SlotsAt(AfterServer(g.(tasks := RemoveAt(g.tasks, i)), m.server,
                                S.Input(g.servers[m.server], m.task, g.now)), s)
  {
    var m := g.tasks[i];
    SumRemove(g.tasks, i, ToServer(s));
    PromisedNonNegative(g, m.server);
    SumAtLeast(g.tasks, i, ToServer(m.server));
    InputStarts(g.servers[m.server], m.task, g.now, Promised(g, m.server));
    ServerKeepsSlots(g, g.(tasks := RemoveAt(g.tasks, i)), m.server,
                     S.Input(g.servers[m.server], m.task, g.now), 0, s);
  }

  /** A task on its way to an AmphiQueue server has its reservation there, so the saturating subtraction is exact. */
  lemma ReservationHeld(g: Cluster, i: nat)
    requires WellFormed(g) && SlotsOk(g) && i < |g.tasks| && g.servers[g.tasks[i].server].cfg.mode == S.AmphiQueue
    ensures g.servers[g.tasks[i].server].pendingPulls > 0
  {
    var s := g.tasks[i].server;
    assert TaskAt(g.topo, s, g.tasks[i].task) && SlotsAt(g, s);
    PromisedNonNegative(g, s);
    SumAtLeast(g.tasks, i, ToServer(s));
  }

  lemma TaskSlots(g: Cluster, i: nat, s: nat)
    requires WellFormed(g) && SlotsOk(g) && s < |g.servers| && i < |g.tasks|
    ensures SlotsAt(TaskDelivered(g, i), s)
  {
    var m := g.tasks[i];
    assert TaskAt(g.topo, m.server, m.task) && ServerWired(g.topo, m.server);
    TaskTakesSlot(g, i, s);
  }

  lemma IntentSlots(g: Cluster, i: nat, s: nat)
    requires WellFormed(g) && SlotsOk(g) && s < |g.servers| && i < |g.intents|
    ensures SlotsAt(IntentDelivered(g, i), s)
  {
    var m := g.intents[i];
    assert IntentAt(g.topo, m.server, m.intent) && ServerWired(g.topo, m.server);
    assert SlotsAt(g, s) && SlotsAt(g, m.server);
    var v := g.servers[m.server];
    assert v.intents != [] ==> IntentAt(g.topo, m.server, v.intents[0]);
    var event := IntentQueued(v.cfg.index, m.intent.senderId, m.intent.requestId, |v.intents|);
    IntentsReserve(v,
                   S.ServerEffects(v.(intents := v.intents + [m.intent]), S.NOTHING.(audit := [event])), Promised(g, m.server));
    ServerKeepsSlots(g, g.(intents := RemoveAt(g.intents, i)), m.server, S.ReceiveIntent(v, m.intent), 0, s);
  }

  /** A completion frees one slot and offers it again at once. */
  lemma CompleteStarts(v: S.ServerState, task: Task, now: Time, promised: int)
    requires v.Valid() && v.inFlight > 0 && Within(v, promised)
    requires v.intents != [] ==> v.intents[0].senderId < v.cfg.nBalancers
    ensures var r := S.Complete(v, task, now); Started(v, r, 1) && Within(r.server, promised + |r.out.pulls|)
  {
    var ended := S.Ended(v, task, now);
    assert Started(v, ended, 1);
    match v.cfg.mode
    case Push => DrainStarts(v, ended, now, 1);
    case Centralized =>
    case AmphiQueue => IntentsReserve(v, ended, promised);
  }

  lemma CompletionFreesSlot(g: Cluster, i: nat, s: nat)
    requires i < |g.completions| && SlotsAt(g, s) && SlotsAt(g, g.completions[i].server)
    requires var v := g.servers[g.completions[i].server];
             && v.Valid() && v.inFlight > 0 && v.cfg.index == g.completions[i].server
             && (v.intents != [] ==> v.intents[0].senderId < v.cfg.nBalancers)
    ensures var c := g.completions[i];
            SlotsAt(AfterServer(g.(now := c.at, completions := RemoveAt(g.completions, i)), c.server,
                                S.Complete(g.servers[c.server], c.task, c.at)), s)
  {
    var c := g.completions[i];
    SumRemove(g.completions, i, RunningAt(s));
    CompleteStarts(g.servers[c.server], c.task, c.at, Promised(g, c.server));
    ServerKeepsSlots(g, g.(now := c.at, completions := RemoveAt(g.completions, i)), c.server,
                     S.Complete(g.servers[c.server], c.task, c.at), 1, s);
  }

  lemma CompletionSlots(g: Cluster, i: nat, s: nat)
    requires WellFormed(g) && SlotsOk(g) && s < |g.servers| && i < |g.completions|
    requires g.servers[g.completions[i].server].inFlight > 0
    ensures SlotsAt(CompletionFired(g, i), s)
  {
    var c := g.completions[i];
    assert CompletionAt(g.topo, c) && ServerWired(g.topo, c.server);
    var v := g.servers[c.server];
    assert v.intents != [] ==> IntentAt(g.topo, c.server, v.intents[0]);
    CompletionFreesSlot(g, i, s);
  }

  /** An initial pull event always finds a free slot: the guard in the handler never drops a token. */
  lemma InitialPullSlots(g: Cluster, i: nat, s: nat)
    requires WellFormed(g) && SlotsOk(g) && s < |g.servers| && i < |g.initialPulls|
    ensures var q := g.initialPulls[i]; g.servers[q.server].inFlight < g.servers[q.server].cfg.maxConcurrency
    ensures SlotsAt(InitialPullFired(g, i), s)
  {
    var q := g.initialPulls[i];
    assert ServerWired(g.topo, q.server);
    assert SlotsAt(g, s) && SlotsAt(g, q.server);
    SumRemove(g.initialPulls, i, StartsAt(s));
    SumAtLeast(g.initialPulls, i, StartsAt(q.server));
    PromisedNonNegative(g, q.server);
    ServerKeepsSlots(g, g.(now := q.at, initialPulls := RemoveAt(g.initialPulls, i)), q.server,
                     S.RequestPull(g.servers[q.server]), 0, s);
  }

  lemma TimerSlots(g: Cluster, i: nat, s: nat)
    requires WellFormed(g) && SlotsOk(g) && s < |g.servers| && i < |g.timers|
    ensures SlotsAt(TimerFired(g, i), s)
  {
    var e := g.timers[i];
    assert TimerAt(g.topo, e) && ServerWired(g.topo, e.server);
    assert SlotsAt(g, s) && SlotsAt(g, e.server);
    TimerStarts(g.servers[e.server], e);
    ServerKeepsSlots(g, g.(now := e.at, timers := RemoveAt(g.timers, i)), e.server,
                     TimerEffects(g.servers[e.server], e), 0, s);
  }

  lemma ReleaseSlots(g: Cluster, i: nat, s: nat)
    requires WellFormed(g) && SlotsAt(g, s) && i < |g.releases|
    ensures SlotsAt(ReleaseDelivered(g, i), s)
  {
    var m := g.releases[i];
    assert ReleaseAt(g.topo, m);
    BalancerKeepsSlots(g, g.(releases := RemoveAt(g.releases, i)), m.lb,
                       B.Start(B.Release(g.balancers[m.lb], m.server)), s);
  }

  lemma NextSlotsAt(g: Cluster, step: Step, s: nat)
    requires WellFormed(g) && Enabled(g, step) && SlotsOk(g) && s < |g.servers|
    ensures SlotsAt(Next(g, step), s)
  {
    assert SlotsAt(g, s);
    match step
    case Arrive(i, pick) => ArriveSlots(g, i, pick, s);
    case DeliverTask(i) => TaskSlots(g, i, s);
    case DeliverIntent(i) => IntentSlots(g, i, s);
    case DeliverPull(i) => PullSlots(g, i, s);
    case DeliverRelease(i) => ReleaseSlots(g, i, s);
    case DeliverEvicted(i, pick) => EvictedSlots(g, i, pick, s);
    case DeliverShed(i, pick) => ShedSlots(g, i, pick, s);
    case FireCompletion(i) => CompletionSlots(g, i, s);
    case FireInitialPull(i) => InitialPullSlots(g, i, s);
    case FireTimer(i) => TimerSlots(g, i, s);
  }

  /** Slots are conserved by every step: no server ever exceeds its concurrency, no token is lost or forged,
      and a server keeps intents or tasks waiting only while all its slots are taken. */
  lemma NextKeepsSlots(g: Cluster, step: Step)
    requires WellFormed(g) && Enabled(g, step) && SlotsOk(g)
    ensures SlotsOk(Next(g, step))
  {
    forall s: nat | s < |Next(g, step).servers| ensures SlotsAt(Next(g, step), s) {
      NextSlotsAt(g, step, s);
    }
  }

  lemma InitialSlots(g: Cluster)
    requires Initial(g)
    ensures SlotsOk(g)
  {
    forall s: nat | s < |g.servers| ensures SlotsAt(g, s) {
      assert ServerWired(g.topo, s);
      forall b | 0 <= b < |g.balancers| ensures WaitingFor(s)(g.balancers[b]) == 0 {
        assert FreshBalancer(g.balancers[b]);
      }
      SumZero(g.balancers, WaitingFor(s));
      if g.topo.servers[s].mode != S.Centralized {
        SumZero(g.initialPulls, StartsAt(s));
      }
    }
  }
}
