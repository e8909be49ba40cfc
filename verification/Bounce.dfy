/** Work shedding can stop time. A full server whose oldest service has run longer than the threshold returns a
    task in the instant it arrives, and the balancer sends it out again in the same instant. While every server of
    the balancer is like that, messages never run out, so no later event is ever reached. */
module Bounce {
  import opened Domain
  import opened Sums
  import opened Clusters
  import B = Balancers
  import S = Servers
  import Occ = Occupancy
  import Wiring

  /** A server that returns every task it receives at `now`. */
  ghost predicate Jammed(v: S.ServerState, now: Time)
  {
    && v.cfg.mode == S.Push && v.inFlight >= v.cfg.maxConcurrency
    && v.cfg.shedding.Some? && S.HeadOfLineExceeds(v.services, now, v.cfg.shedding.value)
  }

  /** A server that evicts nothing returns a task in the instant it arrives exactly when it is jammed, and then it
      is the arriving task that goes back, while queue, slots and running services stay as they are. */
  lemma ReturnedAtOnce(v: S.ServerState, task: Task, now: Time)
    requires v.Valid() && v.cfg.eviction.None?
    ensures var r := S.Input(v, task, now);
            && (r.out.shed != [] <==> Jammed(v, now))
            && (Jammed(v, now) ==>
                  && r.out == S.NOTHING.(releases := [ReleaseMsg(task.lbId, v.cfg.index)],
                                         shed := [ShedMsg(task.lbId, task.(shedAt := Some(now)))])
                  && r.server == v.(occupancy := r.server.occupancy))
  {
    if v.cfg.mode == S.Push && v.inFlight >= v.cfg.maxConcurrency {
      assert RemoveAt(v.queue + [task], |v.queue|) == v.queue;
    }
  }

  function Pool(g: Cluster, b: nat): seq<nat>
    requires b < |g.balancers|
  {
    g.balancers[b].cfg.serverIndices
  }

  ghost predicate Outbound(g: Cluster, b: nat, m: TaskMsg)
    requires b < |g.balancers|
  {
    m in g.tasks && m.task.lbId == b && m.server in Pool(g, b)
  }

  ghost predicate Returning(g: Cluster, b: nat, m: ShedMsg)
  {
    m in g.shed && m.lb == b
  }

  /** The server is jammed, and none of its services ends in this instant. */
  ghost predicate JammedServer(g: Cluster, s: nat)
  {
    && s < |g.servers| && Jammed(g.servers[s], g.now)
    && (forall c :: c in g.completions && c.server == s ==> c.at > g.now)
  }

  /** Balancer `b` has a task on its way out or back, and every server it can choose is jammed. */
  ghost predicate Trapped(g: Cluster, b: nat)
  {
    && b < |g.balancers| && g.balancers[b].cfg.policy == B.Push && !g.aborted
    && ((exists m :: Outbound(g, b, m)) || (exists m :: Returning(g, b, m)))
    && (forall s :: s in Pool(g, b) ==> JammedServer(g, s))
  }

  lemma Kept<T>(s: seq<T>, i: nat, x: T)
    requires i < |s| && x in s && x != s[i]
    ensures x in RemoveAt(s, i)
  {
  }

  /** What a handler must leave alone for a jammed server to stay jammed. */
  ghost predicate StaysJammed(v: S.ServerState, fx: S.ServerEffects)
  {
    fx.server.cfg == v.cfg && fx.server.services == v.services && fx.server.inFlight == v.inFlight
    && fx.out.completions == []
  }

  ghost predicate OwnCompletions(fx: S.ServerEffects, s: nat)
  {
    forall i :: 0 <= i < |fx.out.completions| ==> fx.out.completions[i].server == s
  }

  lemma {:induction false} DrainOwn(fx: S.ServerEffects, now: Time, s: nat)
    requires fx.server.cfg.index == s && OwnCompletions(fx, s)
    ensures OwnCompletions(S.DrainQueue(fx, now), s)
    decreases |fx.server.queue|
  {
    var v := fx.server;
    if v.inFlight < v.cfg.maxConcurrency && v.queue != [] {
      DrainOwn(S.BeginService(S.TakeHead(fx, now), v.queue[0], now), now, s);
    }
  }

  /** A server handler that leaves the jammed servers alone cannot free the balancer. */
  lemma ServerStepTrapped(g: Cluster, g0: Cluster, s: nat, fx: S.ServerEffects, b: nat)
    requires Trapped(g, b) && s < |g0.servers| && OwnCompletions(fx, s)
    requires g0.servers == g.servers && g0.balancers == g.balancers && g0.now == g.now && !g0.aborted
    requires forall c :: c in g0.completions ==> c in g.completions
    requires s in Pool(g, b) ==> StaysJammed(g.servers[s], fx)
    requires (exists m :: Outbound(AfterServer(g0, s, fx), b, m)) || (exists m :: Returning(AfterServer(g0, s, fx), b, m))
    ensures Trapped(AfterServer(g0, s, fx), b)
  {
    var h := AfterServer(g0, s, fx);
    forall t | t in Pool(h, b) ensures JammedServer(h, t) {
      assert JammedServer(g, t);
      forall c | c in h.completions && c.server == t ensures c.at > g.now {
        assert c in g0.completions || c in fx.out.completions;
      }
    }
  }

  lemma StillFlying(g: Cluster, h: Cluster, b: nat)
    requires Trapped(g, b) && b < |h.balancers| && Pool(h, b) == Pool(g, b)
    requires forall m :: m in g.tasks ==> m in h.tasks
    requires forall m :: m in g.shed ==> m in h.shed
    ensures (exists m :: Outbound(h, b, m)) || (exists m :: Returning(h, b, m))
  {
    if m :| Outbound(g, b, m) {
      assert Outbound(h, b, m);
    } else {
      var m :| Returning(g, b, m);
      assert Returning(h, b, m);
    }
  }

  lemma TaskTrapped(g: Cluster, i: nat, b: nat)
    requires WellFormed(g) && Trapped(g, b) && i < |g.tasks|
    ensures Trapped(TaskDelivered(g, i), b)
  {
    var m := g.tasks[i];
    assert TaskAt(g.topo, m.server, m.task) && ServerWired(g.topo, m.server);
    var v := g.servers[m.server];
    var fx := S.Input(v, m.task, g.now);
    var h := TaskDelivered(g, i);
    InputOwn(v, m.task, g.now);
    if m.server in Pool(g, b) {
      assert JammedServer(g, m.server);
      JammedEvictsNothing(g, m.server);
      ReturnedAtOnce(v, m.task, g.now);
    }
    if Outbound(g, b, m) {
      var back := ShedMsg(m.task.lbId, m.task.(shedAt := Some(g.now)));
      assert fx.out.shed == [back];
      assert Returning(h, b, back);
    } else if o :| Outbound(g, b, o) {
      Kept(g.tasks, i, o);
      assert Outbound(h, b, o);
    } else {
      var r :| Returning(g, b, r);
      assert Returning(h, b, r);
    }
    ServerStepTrapped(g, g.(tasks := RemoveAt(g.tasks, i)), m.server, fx, b);
  }

  lemma JammedEvictsNothing(g: Cluster, s: nat)
    requires WellFormed(g) && s < |g.servers| && Jammed(g.servers[s], g.now)
    ensures g.servers[s].Valid() && g.servers[s].cfg.eviction.None?
  {
    assert ServerAt(g.topo, s, g.servers[s]);
  }

  lemma InputOwn(v: S.ServerState, task: Task, now: Time)
    requires v.Valid()
    ensures OwnCompletions(S.Input(v, task, now), v.cfg.index)
  {
    if v.cfg.mode == S.Push && v.inFlight >= v.cfg.maxConcurrency {
      var queued := S.Begin(S.SampleLevel(v.(queue := v.queue + [task]), now));
      EvictionStartsNothing(queued, task.start, now);
    }
  }

  lemma EvictionStartsNothing(fx: S.ServerEffects, start: Time, now: Time)
    requires fx.server.queue != []
    ensures S.ApplyEviction(fx, start, now).out.completions == fx.out.completions
  {
  }

  lemma CompleteOwn(v: S.ServerState, task: Task, now: Time)
    requires v.inFlight > 0
    ensures OwnCompletions(S.Complete(v, task, now), v.cfg.index)
  {
    if v.cfg.mode == S.Push {
      DrainOwn(S.Ended(v, task, now), now, v.cfg.index);
    }
  }

  lemma CompletionTrapped(g: Cluster, i: nat, b: nat)
    requires WellFormed(g) && Trapped(g, b) && i < |g.completions| && Enabled(g, FireCompletion(i))
    ensures Trapped(CompletionFired(g, i), b) && CompletionFired(g, i).now == g.now
  {
    var c := g.completions[i];
    assert CompletionAt(g.topo, c) && ServerWired(g.topo, c.server);
    var v := g.servers[c.server];
    NotQuiet(g, b);
    assert c.server in Pool(g, b) ==> JammedServer(g, c.server);
    var fx := S.Complete(v, c.task, c.at);
    CompleteOwn(v, c.task, c.at);
    StillFlying(g, CompletionFired(g, i), b);
    ServerStepTrapped(g, g.(now := c.at, completions := RemoveAt(g.completions, i)), c.server, fx, b);
  }

  lemma NotQuiet(g: Cluster, b: nat)
    requires Trapped(g, b)
    ensures !Quiet(g)
  {
    if m :| Outbound(g, b, m) {
      assert m in g.tasks;
    } else {
      var m :| Returning(g, b, m);
      assert m in g.shed;
    }
  }

  lemma TimerTrapped(g: Cluster, i: nat, b: nat)
    requires WellFormed(g) && Trapped(g, b) && i < |g.timers| && Enabled(g, FireTimer(i))
    ensures Trapped(TimerFired(g, i), b) && TimerFired(g, i).now == g.now
  {
    var e := g.timers[i];
    assert TimerAt(g.topo, e);
    NotQuiet(g, b);
    var fx := TimerEffects(g.servers[e.server], e);
    assert StaysJammed(g.servers[e.server], fx);
    StillFlying(g, TimerFired(g, i), b);
    ServerStepTrapped(g, g.(now := e.at, timers := RemoveAt(g.timers, i)), e.server, fx, b);
  }

  lemma InitialPullTrapped(g: Cluster, i: nat, b: nat)
    requires WellFormed(g) && Trapped(g, b) && i < |g.initialPulls| && Enabled(g, FireInitialPull(i))
    ensures Trapped(InitialPullFired(g, i), b) && InitialPullFired(g, i).now == g.now
  {
    var q := g.initialPulls[i];
    NotQuiet(g, b);
    StillFlying(g, InitialPullFired(g, i), b);
    ServerStepTrapped(g, g.(now := q.at, initialPulls := RemoveAt(g.initialPulls, i)), q.server,
                      S.RequestPull(g.servers[q.server]), b);
  }

  lemma IntentTrapped(g: Cluster, i: nat, b: nat)
    requires WellFormed(g) && Trapped(g, b) && i < |g.intents|
    ensures Trapped(IntentDelivered(g, i), b)
  {
    var m := g.intents[i];
    assert IntentAt(g.topo, m.server, m.intent);
    assert m.server in Pool(g, b) ==> JammedServer(g, m.server);
    StillFlying(g, IntentDelivered(g, i), b);
    ServerStepTrapped(g, g.(intents := RemoveAt(g.intents, i)), m.server,
                      S.ReceiveIntent(g.servers[m.server], m.intent), b);
  }

  /** Balancer handlers touch no server. */
  lemma BalancerStepTrapped(g: Cluster, g0: Cluster, h: nat, fx: B.Effects, b: nat)
    requires Trapped(g, b) && h < |g.balancers| && fx.balancer.cfg == g.balancers[h].cfg
    requires g0.servers == g.servers && g0.balancers == g.balancers && g0.now == g.now && !g0.aborted
    requires g0.completions == g.completions
    requires (exists m :: Outbound(AfterBalancer(g0, h, fx), b, m)) || (exists m :: Returning(AfterBalancer(g0, h, fx), b, m))
    ensures Trapped(AfterBalancer(g0, h, fx), b)
  {
    var r := AfterBalancer(g0, h, fx);
    forall s | s in Pool(r, b) ensures JammedServer(r, s) {
      assert JammedServer(g, s);
    }
  }

  lemma ShedTrapped(g: Cluster, i: nat, pick: nat, b: nat)
    requires WellFormed(g) && Trapped(g, b) && i < |g.shed| && CanPick(g, g.shed[i].lb, pick)
    ensures Trapped(ShedDelivered(g, i, pick), b)
  {
    var m := g.shed[i];
    var l := g.balancers[m.lb];
    assert BalancerAt(g.topo, m.lb, l) && BalancerWired(g.topo, m.lb);
    var fx := B.Input(l, m.task, g.now, pick);
    var h := ShedDelivered(g, i, pick);
    if m.lb == b {
      var out := TaskMsg(l.cfg.serverIndices[pick], B.Stamped(l, l.cfg.serverIndices[pick], m.task, g.now));
      assert fx.out.tasks == [out];
      assert Outbound(h, b, out);
    } else if o :| Outbound(g, b, o) {
      assert Outbound(h, b, o);
    } else {
      var r :| Returning(g, b, r);
      Kept(g.shed, i, r);
      assert Returning(h, b, r);
    }
    BalancerStepTrapped(g, g.(shed := RemoveAt(g.shed, i)), m.lb, fx, b);
  }

  lemma ArriveTrapped(g: Cluster, i: nat, pick: nat, b: nat)
    requires WellFormed(g) && Trapped(g, b) && i < |g.arrivals| && Enabled(g, Arrive(i, pick))
    ensures Trapped(Arrived(g, i, pick), b) && Arrived(g, i, pick).now == g.now
  {
    NotQuiet(g, b);
    StillFlying(g, Arrived(g, i, pick), b);
    var a := g.arrivals[i];
    BalancerStepTrapped(g, g.(now := a.at, arrivals := RemoveAt(g.arrivals, i)), a.lb,
                        B.Input(g.balancers[a.lb], a.task, a.at, pick), b);
  }

  lemma EvictedTrapped(g: Cluster, i: nat, pick: nat, b: nat)
    requires WellFormed(g) && Trapped(g, b) && i < |g.evicted| && CanPick(g, g.topo.expressLb, pick)
    ensures Trapped(EvictedDelivered(g, i, pick), b)
  {
    StillFlying(g, EvictedDelivered(g, i, pick), b);
    BalancerStepTrapped(g, g.(evicted := RemoveAt(g.evicted, i)), g.topo.expressLb,
                        B.Input(g.balancers[g.topo.expressLb], g.evicted[i], g.now, pick), b);
  }

  lemma PullTrapped(g: Cluster, i: nat, b: nat)
    requires WellFormed(g) && Trapped(g, b) && i < |g.pulls| && !PullDelivered(g, i).aborted
    ensures Trapped(PullDelivered(g, i), b)
  {
    var m := g.pulls[i];
    assert PullAt(g.topo, m);
    StillFlying(g, PullDelivered(g, i), b);
    BalancerStepTrapped(g, g.(pulls := RemoveAt(g.pulls, i)), m.lb, B.Pull(g.balancers[m.lb], m.pull, g.now).effects, b);
  }

  lemma ReleaseTrapped(g: Cluster, i: nat, b: nat)
    requires WellFormed(g) && Trapped(g, b) && i < |g.releases|
    ensures Trapped(ReleaseDelivered(g, i), b)
  {
    var m := g.releases[i];
    assert ReleaseAt(g.topo, m);
    StillFlying(g, ReleaseDelivered(g, i), b);
    BalancerStepTrapped(g, g.(releases := RemoveAt(g.releases, i)), m.lb,
                        B.Start(B.Release(g.balancers[m.lb], m.server)), b);
  }

  /** A trapped balancer never gets out: whatever handler runs next, time stands still and it is trapped again.
      So no continuation of the run ever completes the services that keep the servers full. */
  lemma TrappedForever(g: Cluster, step: Step, b: nat)
    requires WellFormed(g) && Trapped(g, b) && Enabled(g, step) && !Next(g, step).aborted
    ensures Trapped(Next(g, step), b) && Next(g, step).now == g.now
  {
    match step
    case DeliverTask(i) => TaskTrapped(g, i, b);
    case DeliverIntent(i) => IntentTrapped(g, i, b);
    case DeliverShed(i, pick) => ShedTrapped(g, i, pick, b);
    case FireCompletion(i) => CompletionTrapped(g, i, b);
    case FireInitialPull(i) => InitialPullTrapped(g, i, b);
    case FireTimer(i) => TimerTrapped(g, i, b);
    case Arrive(i, pick) => ArriveTrapped(g, i, pick, b);
    case DeliverEvicted(i, pick) => EvictedTrapped(g, i, pick, b);
    case DeliverPull(i) => PullTrapped(g, i, b);
    case DeliverRelease(i) => ReleaseTrapped(g, i, b);
  }

  // One server with one slot, threshold one: a first request of ten time units, a second one at time five.

  const TINY := Topology(
    [BalancerRole(B.BalancerConfig(B.Push, 0, [0], false, false), 1)],
    [S.ServerConfig(0, 1, S.Push, false, 0, 1, None, Some(1))], 1)

  const TWO_REQUESTS := Cluster(
    TINY, 0, [B.Balancer(TINY.balancers[0].cfg, [0], [0], [], [], 0, Occ.EMPTY)],
    [S.ServerState(TINY.servers[0], 0, 0, [], [], [], [], [], Occ.EMPTY, 0)],
    [Arrival(0, 0, NewTask(0, 10)), Arrival(5, 0, NewTask(5, 1))], [], [], [], [], [], [], [], [], [], [], [], false)

  lemma TinyInitial()
    ensures Initial(TWO_REQUESTS)
  {
    assert BalancerWired(TINY, 0) && ServerWired(TINY, 0);
  }

  const FIRST := NewTask(0, 10).(dispatchedAt := Some(0))
  const SECOND := NewTask(5, 1).(dispatchedAt := Some(5))

  function Balanced(inflight: nat): B.Balancer
  {
    TWO_REQUESTS.balancers[0].(localInflight := [inflight])
  }

  function Busy(occupancy: Occ.Accumulator): S.ServerState
  {
    S.ServerState(TINY.servers[0], 1, 0, [S.Service(0, 10)], [], [], [], [], occupancy, 0)
  }

  const SENT := TWO_REQUESTS.(
    arrivals := [Arrival(5, 0, NewTask(5, 1))], balancers := [Balanced(1)], tasks := [TaskMsg(0, FIRST)])

  const RUNNING := SENT.(
    tasks := [], servers := [Busy(Occ.Accumulator(Some(0), 1, 0))],
    completions := [S.Completion(10, 0, FIRST.(serviceStartedAt := Some(0)))])

  const SENT_AGAIN := RUNNING.(now := 5, arrivals := [], balancers := [Balanced(2)], tasks := [TaskMsg(0, SECOND)])

  const RETURNED := SENT_AGAIN.(
    tasks := [], servers := [Busy(Occ.Accumulator(Some(5), 1, 5))],
    releases := [ReleaseMsg(0, 0)], shed := [ShedMsg(0, SECOND.(shedAt := Some(5)))])

  lemma TinyDispatch(inflight: nat, start: Time, duration: nat)
    ensures B.Input(Balanced(inflight), NewTask(start, duration), start, 0)
         == B.Effects(Balanced(inflight + 1),
                      B.NOTHING.(tasks := [TaskMsg(0, NewTask(start, duration).(dispatchedAt := Some(start)))]))
  {
    assert [inflight][0 := inflight + 1] == [inflight + 1];
  }

  lemma TinyService()
    ensures var r := S.Input(TWO_REQUESTS.servers[0], FIRST, 0);
            r == S.ServerEffects(RUNNING.servers[0], S.NOTHING.(completions := RUNNING.completions))
  {
  }

  lemma TinyShed()
    ensures var r := S.Input(RUNNING.servers[0], SECOND, 5);
            r == S.ServerEffects(RETURNED.servers[0], S.NOTHING.(releases := RETURNED.releases, shed := RETURNED.shed))
  {
    TinyJammed();
    ReturnedAtOnce(RUNNING.servers[0], SECOND, 5);
    TinyOccupancy(RUNNING.servers[0]);
  }

  lemma TinyJammed()
    ensures Jammed(RUNNING.servers[0], 5)
  {
    assert S.HeadOfLineWait([S.Service(0, 10)], 5) == 5;
  }

  /** The occupancy is sampled twice: with the task that came, and without it again. */
  lemma TinyOccupancy(v: S.ServerState)
    requires v.cfg == TINY.servers[0] && v.inFlight == 1 && v.queue == [] && Jammed(v, 5)
    ensures S.Input(v, SECOND, 5).server.occupancy == Occ.Sampled(Occ.Sampled(v.occupancy, 5, 2), 5, 1)
  {
    assert RemoveAt([SECOND], 0) == [];
  }

  lemma TinySends()
    ensures StepTo(TWO_REQUESTS, Arrive(0, 0), SENT)
  {
    TinyInitial();
    TinyDispatch(0, 0, 10);
    assert RemoveAt(TWO_REQUESTS.arrivals, 0) == SENT.arrivals;
    assert TWO_REQUESTS.balancers[0 := Balanced(1)] == SENT.balancers;
  }

  lemma TinyRuns()
    requires WellFormed(SENT)
    ensures StepTo(SENT, DeliverTask(0), RUNNING)
  {
    TinyService();
    assert RemoveAt(SENT.tasks, 0) == [];
    assert SENT.servers[0 := RUNNING.servers[0]] == RUNNING.servers;
  }

  lemma TinyArrival()
    requires WellFormed(RUNNING)
    ensures Enabled(RUNNING, Arrive(0, 0))
  {
  }

  lemma TinySendsAgain()
    requires WellFormed(RUNNING)
    ensures StepTo(RUNNING, Arrive(0, 0), SENT_AGAIN)
  {
    TinyArrival();
    TinyDispatch(1, 5, 1);
    assert RemoveAt(RUNNING.arrivals, 0) == [];
    assert RUNNING.balancers[0 := Balanced(2)] == SENT_AGAIN.balancers;
  }

  lemma TinyReturns()
    requires WellFormed(SENT_AGAIN)
    ensures StepTo(SENT_AGAIN, DeliverTask(0), RETURNED)
  {
    TinyShed();
    assert RemoveAt(SENT_AGAIN.tasks, 0) == [];
    assert SENT_AGAIN.servers[0 := RETURNED.servers[0]] == RETURNED.servers;
  }

  lemma TinyJam()
    ensures Trapped(RETURNED, 0)
  {
    assert Returning(RETURNED, 0, RETURNED.shed[0]);
  }

  lemma Stepped(g: Cluster, step: Step, h: Cluster)
    requires StepTo(g, step, h)
    ensures WellFormed(h)
  {
    Wiring.NextKeepsWellFormed(g, step);
  }

  /** The trap is reached in four steps: the second request comes back from the only server it can go to. */
  lemma TinyTrap()
    ensures Initial(TWO_REQUESTS) && StepTo(TWO_REQUESTS, Arrive(0, 0), SENT) && StepTo(SENT, DeliverTask(0), RUNNING)
    ensures StepTo(RUNNING, Arrive(0, 0), SENT_AGAIN) && StepTo(SENT_AGAIN, DeliverTask(0), RETURNED)
    ensures Trapped(RETURNED, 0)
  {
    TinyInitial();
    TinySends();
    Stepped(TWO_REQUESTS, Arrive(0, 0), SENT);
    TinyRuns();
    Stepped(SENT, DeliverTask(0), RUNNING);
    TinySendsAgain();
    Stepped(RUNNING, Arrive(0, 0), SENT_AGAIN);
    TinyReturns();
    TinyJam();
  }
}
