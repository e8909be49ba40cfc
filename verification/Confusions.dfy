/** Why the waiting bound needs its assumptions: servers file services under the time they started and timers under
    the start of the task, and confuse two that share that time. */
module Confusions {
  import opened Domain
  import opened Sums
  import opened Clusters
  import B = Balancers
  import S = Servers
  import Occ = Occupancy
  import Wiring
  import Waiting
  import Deadlines
  import Runs
  import Endless

  function Sent(start: Time, duration: nat, now: Time): Task
  {
    NewTask(start, duration).(dispatchedAt := Some(now))
  }

  function Config(slots: nat, eviction: Option<S.EvictionPolicy>, shedding: Option<nat>): S.ServerConfig
  {
    S.ServerConfig(0, slots, S.Push, false, 0, 1, eviction, shedding)
  }

  ghost predicate Is(v: S.ServerState, c: S.ServerConfig, inFlight: nat, services: seq<S.Service>, queue: seq<Task>,
                     evictions: seq<S.Timer>, sheds: seq<S.Timer>)
  {
    && v.cfg == c && v.inFlight == inFlight && v.services == services && v.queue == queue
    && v.pendingEvictions == evictions && v.pendingSheds == sheds
  }

  // Two slots, shedding at a delay of 10. Services of 100 and of 1 start together; when the short one ends the record of
  // the long one is removed instead.

  const SHARED := Config(2, None, Some(10))

  const ONE_SERVER := Topology([BalancerRole(B.BalancerConfig(B.Push, 0, [0], false, false), 1)], [SHARED], 1)

  const LONG := Arrival(0, 0, NewTask(0, 100))
  const SHORT := Arrival(0, 0, NewTask(0, 1))
  const SECOND := Arrival(2, 0, NewTask(2, 100))
  const WAITER := Arrival(3, 0, NewTask(3, 1))

  const CONFUSING := Cluster(
    ONE_SERVER, 0, [B.Balancer(ONE_SERVER.balancers[0].cfg, [0], [0], [], [], 0, Occ.EMPTY)],
    [S.ServerState(SHARED, 0, 0, [], [], [], [], [], Occ.EMPTY, 0)], [LONG, SHORT, SECOND, WAITER], [], [], [], [], [], [], [], [], [], [], [], false)

  lemma ConfusingInitial()
    ensures Initial(CONFUSING)
  {
    assert BalancerWired(ONE_SERVER, 0) && ServerWired(ONE_SERVER, 0);
  }

  /** Between two instants: requests still to come, and one server with its services, its queue and no timer. */
  ghost predicate Stage(g: Cluster, arrivals: seq<Arrival>, services: seq<S.Service>, queue: seq<Task>, completions: seq<S.Completion>)
  {
    && g.topo == ONE_SERVER && WellFormed(g) && !g.aborted && Quiet(g) && g.timers == [] && g.initialPulls == []
    && g.arrivals == arrivals && g.completions == completions
    && |g.servers| == 1 && Is(g.servers[0], SHARED, |services|, services, queue, [], [])
  }

  /** The time and the duration of a request to come. */
  ghost predicate Coming(a: Arrival, later: seq<Arrival>, completions: seq<S.Completion>, now: Time)
  {
    && a.lb == 0 && a.task == NewTask(a.at, a.task.duration) && now <= a.at
    && (forall i :: 0 <= i < |later| ==> a.at <= later[i].at) && (forall i :: 0 <= i < |completions| ==> a.at <= completions[i].at)
  }

  lemma Sends(g: Cluster, services: seq<S.Service>, completions: seq<S.Completion>, a: Arrival, later: seq<Arrival>)
    requires Stage(g, [a] + later, services, [], completions) && Coming(a, later, completions, g.now)
    ensures Enabled(g, Arrive(0, 0))
    ensures var h := Arrived(g, 0, 0);
            h == g.(now := a.at, arrivals := later, balancers := h.balancers, tasks := [TaskMsg(0, Sent(a.at, a.task.duration, a.at))])
  {
    assert BalancerAt(g.topo, 0, g.balancers[0]) && BalancerWired(g.topo, 0);
    assert RemoveAt([a] + later, 0) == later;
    var sent := TaskMsg(0, Sent(a.at, a.task.duration, a.at));
    assert B.Input(g.balancers[0], a.task, a.at, 0).out == B.NOTHING.(tasks := [sent]);
  }

  /** A request comes and is started, or waits. */
  lemma Comes(g: Cluster, services: seq<S.Service>, completions: seq<S.Completion>, a: Arrival, later: seq<Arrival>,
              after: seq<S.Service>, queue: seq<Task>, begun: seq<S.Completion>) returns (sent: Cluster, h: Cluster)
    requires Stage(g, [a] + later, services, [], completions) && Coming(a, later, completions, g.now)
    requires g.servers[0].Valid()
    requires var fx := S.Input(g.servers[0], Sent(a.at, a.task.duration, a.at), a.at);
             Is(fx.server, SHARED, |after|, after, queue, [], []) && fx.out == S.NOTHING.(completions := begun)
    ensures StepTo(g, Arrive(0, 0), sent) && StepTo(sent, DeliverTask(0), h)
    ensures Stage(h, later, after, queue, completions + begun) && h.now == a.at
  {
    Sends(g, services, completions, a, later);
    sent := Arrived(g, 0, 0);
    Wiring.NextKeepsWellFormed(g, Arrive(0, 0));
    h := TaskDelivered(sent, 0);
    Wiring.NextKeepsWellFormed(sent, DeliverTask(0));
    assert RemoveAt(sent.tasks, 0) == [];
  }

  function Ending(start: Time, duration: nat): S.Completion
  {
    S.Completion(start + duration, 0, Sent(start, duration, start).(serviceStartedAt := Some(start)))
  }

  /** A request that finds a free slot starts. */
  lemma Starts(v: S.ServerState, services: seq<S.Service>, start: Time, duration: nat)
    requires Is(v, SHARED, |services|, services, [], [], []) && |services| < 2
    ensures var fx := S.Input(v, Sent(start, duration, start), start);
            && Is(fx.server, SHARED, |services| + 1, services + [S.Service(start, duration)], [], [], [])
            && fx.out == S.NOTHING.(completions := [Ending(start, duration)])
  {
  }

  lemma ComesAndStarts(g: Cluster, all: seq<Arrival>, services: seq<S.Service>, completions: seq<S.Completion>, a: Arrival,
                       later: seq<Arrival>, after: seq<S.Service>, ends: seq<S.Completion>)
    returns (sent: Cluster, h: Cluster)
    requires Stage(g, all, services, [], completions) && |services| < 2 && Coming(a, later, completions, g.now)
    requires all == [a] + later && after == services + [S.Service(a.at, a.task.duration)]
    requires ends == completions + [Ending(a.at, a.task.duration)]
    ensures StepTo(g, Arrive(0, 0), sent) && StepTo(sent, DeliverTask(0), h) && h.now == a.at
    ensures Stage(h, later, after, [], ends)
  {
    Starts(g.servers[0], services, a.at, a.task.duration);
    sent, h := Comes(g, services, completions, a, later, services + [S.Service(a.at, a.task.duration)], [],
                     [Ending(a.at, a.task.duration)]);
  }

  lemma FooledEstimate()
    ensures S.HeadOfLineWait([S.Service(0, 1), S.Service(2, 100)], 3) == 3
    ensures S.IdealDelayEstimate([Sent(3, 1, 3)], [S.Service(0, 1), S.Service(2, 100)], 3) == 1
  {
    var services := [S.Service(0, 1), S.Service(2, 100)];
    assert services[..1] == [S.Service(0, 1)];
    assert S.RemainingService(services[0], 3) == 0;
    assert [Sent(3, 1, 3)][..0] == [];
  }

  lemma WaitsUnguarded(v: S.ServerState)
    requires Is(v, SHARED, 2, [S.Service(0, 1), S.Service(2, 100)], [], [], [])
    ensures var r := S.Input(v, Sent(3, 1, 3), 3);
            Is(r.server, SHARED, 2, v.services, [Sent(3, 1, 3)], [], []) && r.out == S.NOTHING
  {
    FooledEstimate();
    assert v.queue + [Sent(3, 1, 3)] == [Sent(3, 1, 3)];
  }

  lemma WrongRecordRemoved(v: S.ServerState)
    requires Is(v, SHARED, 2, [S.Service(0, 100), S.Service(0, 1)], [], [], [])
    ensures var fx := S.Complete(v, Ending(0, 1).task, 1);
            && Is(fx.server, SHARED, 1, [S.Service(0, 1)], [], [], [])
            && fx.out == S.NOTHING.(finished := fx.out.finished, releases := [ReleaseMsg(0, 0)])
  {
    assert S.RemoveInFlight(v.services, 0) == [S.Service(0, 1)];
  }

  /** The short service has ended, and its release is on its way. */
  ghost predicate Freed(g: Cluster)
  {
    && g.topo == ONE_SERVER && WellFormed(g) && !g.aborted && g.releases == [ReleaseMsg(0, 0)] && g.now == 1
    && g.tasks == [] && g.intents == [] && g.pulls == [] && g.evicted == [] && g.shed == []
    && g.timers == [] && g.initialPulls == [] && g.arrivals == [SECOND, WAITER] && g.completions == [Ending(0, 100)]
    && |g.servers| == 1 && Is(g.servers[0], SHARED, 1, [S.Service(0, 1)], [], [], [])
  }

  lemma ShortEnds(g: Cluster) returns (freed: Cluster)
    requires Stage(g, [SECOND, WAITER], [S.Service(0, 100), S.Service(0, 1)], [], [Ending(0, 100), Ending(0, 1)]) && g.now == 0
    ensures StepTo(g, FireCompletion(1), freed) && Freed(freed)
  {
    freed := CompletionFired(g, 1);
    ShortDue(g);
    ShortFreed(g);
    Wiring.NextKeepsWellFormed(g, FireCompletion(1));
  }

  lemma ShortDue(g: Cluster)
    requires Stage(g, [SECOND, WAITER], [S.Service(0, 100), S.Service(0, 1)], [], [Ending(0, 100), Ending(0, 1)]) && g.now == 0
    ensures Enabled(g, FireCompletion(1))
  {
    assert g.completions[1].at == 1;
  }

  lemma LateDue(g: Cluster)
    requires Stage(g, [], [S.Service(0, 1), S.Service(2, 100)], [Sent(3, 1, 3)], [Ending(0, 100), Ending(2, 100)]) && g.now == 3
    ensures Enabled(g, FireCompletion(0))
  {
    assert g.completions[0].at == 100;
  }

  lemma ShortFreed(g: Cluster)
    requires Stage(g, [SECOND, WAITER], [S.Service(0, 100), S.Service(0, 1)], [], [Ending(0, 100), Ending(0, 1)])
    ensures var h := CompletionFired(g, 1);
            && h == g.(now := 1, servers := h.servers, completions := [Ending(0, 100)], releases := [ReleaseMsg(0, 0)], done := h.done)
            && |h.servers| == 1 && Is(h.servers[0], SHARED, 1, [S.Service(0, 1)], [], [], [])
  {
    WrongRecordRemoved(g.servers[0]);
    assert RemoveAt(g.completions, 1) == [Ending(0, 100)];
  }

  lemma ReleaseComes(freed: Cluster) returns (h: Cluster)
    requires Freed(freed)
    ensures StepTo(freed, DeliverRelease(0), h)
    ensures Stage(h, [SECOND, WAITER], [S.Service(0, 1)], [], [Ending(0, 100)]) && h.now == 1
  {
    h := ReleaseDelivered(freed, 0);
    Wiring.NextKeepsWellFormed(freed, DeliverRelease(0));
    assert RemoveAt(freed.releases, 0) == [];
  }

  lemma StartsLate(v: S.ServerState)
    requires Is(v, SHARED, 2, [S.Service(0, 1), S.Service(2, 100)], [Sent(3, 1, 3)], [], [])
    ensures S.Complete(v, Ending(0, 100).task, 100).out.completions == [LATE]
  {
    Waiting.CompleteTakesHead(v, Ending(0, 100).task, 100);
  }

  const LATE := S.Completion(101, 0, Sent(3, 1, 3).(serviceStartedAt := Some(100)))

  lemma LateTask(p: Topology)
    requires p == ONE_SERVER
    ensures !Deadlines.StartedInTime(p, LATE.task)
  {
  }

  lemma LateBegins(g: Cluster)
    requires Stage(g, [], [S.Service(0, 1), S.Service(2, 100)], [Sent(3, 1, 3)], [Ending(0, 100), Ending(2, 100)])
    ensures CompletionFired(g, 0).completions == [Ending(2, 100), LATE] && CompletionFired(g, 0).topo == ONE_SERVER
  {
    StartsLate(g.servers[0]);
    assert RemoveAt(g.completions, 0) + [LATE] == [Ending(2, 100), LATE];
  }

  /** At 100 the first slot becomes free, and the task that came at 3 starts. */
  lemma Misses(g: Cluster) returns (h: Cluster)
    requires Stage(g, [], [S.Service(0, 1), S.Service(2, 100)], [Sent(3, 1, 3)], [Ending(0, 100), Ending(2, 100)]) && g.now == 3
    ensures StepTo(g, FireCompletion(0), h) && !Deadlines.Departed(h)
  {
    h := CompletionFired(g, 0);
    LateDue(g);
    LateBegins(g);
    LateTask(h.topo);
    assert h.completions[1] == LATE;
  }

  lemma More(states: seq<Cluster>, steps: seq<Step>, first: Step, mid: Cluster, second: Step, h: Cluster)
    returns (more: seq<Cluster>, all: seq<Step>)
    requires Run(states, steps) && StepTo(Runs.Final(states), first, mid) && StepTo(mid, second, h)
    ensures Run(more, all) && Runs.Final(more) == h && more[0] == states[0]
  {
    Endless.Extended(states, steps, first, mid);
    more, all := states + [mid], steps + [first];
    Endless.Extended(more, all, second, h);
    more, all := more + [h], all + [second];
  }

  lemma FirstComes() returns (sent: Cluster, g: Cluster)
    ensures Initial(CONFUSING) && StepTo(CONFUSING, Arrive(0, 0), sent) && StepTo(sent, DeliverTask(0), g)
    ensures Stage(g, [SHORT, SECOND, WAITER], [S.Service(0, 100)], [], [Ending(0, 100)]) && g.now == 0
  {
    ConfusingInitial();
    assert CONFUSING.arrivals == [LONG] + [SHORT, SECOND, WAITER];
    sent, g := ComesAndStarts(CONFUSING, CONFUSING.arrivals, [], [], LONG, [SHORT, SECOND, WAITER], [S.Service(0, 100)], [Ending(0, 100)]);
  }

  lemma SecondComes(g: Cluster) returns (sent: Cluster, h: Cluster)
    requires Stage(g, [SHORT, SECOND, WAITER], [S.Service(0, 100)], [], [Ending(0, 100)]) && g.now == 0
    ensures StepTo(g, Arrive(0, 0), sent) && StepTo(sent, DeliverTask(0), h)
    ensures Stage(h, [SECOND, WAITER], [S.Service(0, 100), S.Service(0, 1)], [], [Ending(0, 100), Ending(0, 1)]) && h.now == 0
  {
    sent, h := ComesAndStarts(g, [SHORT, SECOND, WAITER], [S.Service(0, 100)], [Ending(0, 100)], SHORT, [SECOND, WAITER],
                              [S.Service(0, 100), S.Service(0, 1)], [Ending(0, 100), Ending(0, 1)]);
  }

  lemma ThirdComes(g: Cluster) returns (sent: Cluster, h: Cluster)
    requires Stage(g, [SECOND, WAITER], [S.Service(0, 1)], [], [Ending(0, 100)]) && g.now == 1
    ensures StepTo(g, Arrive(0, 0), sent) && StepTo(sent, DeliverTask(0), h)
    ensures Stage(h, [WAITER], [S.Service(0, 1), S.Service(2, 100)], [], [Ending(0, 100), Ending(2, 100)]) && h.now == 2
  {
    sent, h := ComesAndStarts(g, [SECOND, WAITER], [S.Service(0, 1)], [Ending(0, 100)], SECOND, [WAITER],
                              [S.Service(0, 1), S.Service(2, 100)], [Ending(0, 100), Ending(2, 100)]);
  }

  lemma FourthWaits(g: Cluster) returns (sent: Cluster, h: Cluster)
    requires Stage(g, [WAITER], [S.Service(0, 1), S.Service(2, 100)], [], [Ending(0, 100), Ending(2, 100)]) && g.now == 2
    ensures StepTo(g, Arrive(0, 0), sent) && StepTo(sent, DeliverTask(0), h)
    ensures Stage(h, [], [S.Service(0, 1), S.Service(2, 100)], [Sent(3, 1, 3)], [Ending(0, 100), Ending(2, 100)]) && h.now == 3
  {
    WaitsUnguarded(g.servers[0]);
    assert [WAITER] == [WAITER] + [];
    sent, h := Comes(g, [S.Service(0, 1), S.Service(2, 100)], [Ending(0, 100), Ending(2, 100)], WAITER, [],
                     [S.Service(0, 1), S.Service(2, 100)], [Sent(3, 1, 3)], []);
  }

  lemma UpToForgotten() returns (states: seq<Cluster>, steps: seq<Step>)
    ensures Run(states, steps) && states[0] == CONFUSING && Runs.Final(states).now == 1
    ensures Stage(Runs.Final(states), [SECOND, WAITER], [S.Service(0, 1)], [], [Ending(0, 100)])
  {
    var sent, first := FirstComes();
    states, steps := [CONFUSING], [];
    states, steps := More(states, steps, Arrive(0, 0), sent, DeliverTask(0), first);
    var sent2, second := SecondComes(first);
    states, steps := More(states, steps, Arrive(0, 0), sent2, DeliverTask(0), second);
    var freed := ShortEnds(second);
    var one := ReleaseComes(freed);
    states, steps := More(states, steps, FireCompletion(1), freed, DeliverRelease(0), one);
  }

  /** Requests of 100 and of 1 come together at 0, one of 100 at 2, and one of 1 at 3. When the short service ends at 1 the
      server forgets the long one; at 3 it takes its next slot to be free already, and lets the last request wait without
      a timer. That request starts at 100, although its bound was 13. */
  lemma RecordsConfused() returns (states: seq<Cluster>, steps: seq<Step>)
    ensures Run(states, steps) && states[0] == CONFUSING && !Deadlines.Departed(Runs.Final(states))
  {
    states, steps := UpToForgotten();
    var sent, third := ThirdComes(Runs.Final(states));
    states, steps := More(states, steps, Arrive(0, 0), sent, DeliverTask(0), third);
    var sent2, full := FourthWaits(third);
    states, steps := More(states, steps, Arrive(0, 0), sent2, DeliverTask(0), full);
    var late := Misses(full);
    Endless.Extended(states, steps, FireCompletion(0), late);
    states, steps := states + [late], steps + [FireCompletion(0)];
  }

  // One slot, shedding at a delay of 10. A task returned from elsewhere has the start of one that is queued already.

  const SHEDDING := Config(1, None, Some(10))
  const RUNNING := S.Service(0, 10)
  const NEAR := Sent(5, 3, 5)
  const HUGE := Sent(6, 100, 6)
  const RETURNED := Sent(5, 1, 7)

  lemma Estimates()
    ensures S.QueueWork([NEAR]) == 3 && S.QueueWork([NEAR, HUGE]) == 103 && S.QueueWork([NEAR, HUGE, RETURNED]) == 104
    ensures S.MinRemaining([RUNNING], 5) == 5 && S.MinRemaining([RUNNING], 6) == 4 && S.MinRemaining([RUNNING], 7) == 3
    ensures forall now: nat :: S.HeadOfLineWait([RUNNING], now) == now
  {
    assert [NEAR, HUGE, RETURNED][..2] == [NEAR, HUGE];
    assert [NEAR, HUGE][..1] == [NEAR];
    assert [NEAR][..0] == [];
  }

  lemma NearWaits(v: S.ServerState)
    requires Is(v, SHEDDING, 1, [RUNNING], [], [], [])
    ensures Is(S.Input(v, NEAR, 5).server, SHEDDING, 1, [RUNNING], [NEAR], [], [])
  {
    Estimates();
    assert v.queue + [NEAR] == [NEAR];
  }

  lemma HugeWaits(v: S.ServerState)
    requires Is(v, SHEDDING, 1, [RUNNING], [NEAR], [], [])
    ensures Is(S.Input(v, HUGE, 6).server, SHEDDING, 1, [RUNNING], [NEAR, HUGE], [], [S.Timer(6, 16)])
  {
    Estimates();
    assert v.queue + [HUGE] == [NEAR, HUGE];
  }

  lemma ReturnedWaits(v: S.ServerState)
    requires Is(v, SHEDDING, 1, [RUNNING], [NEAR, HUGE], [], [S.Timer(6, 16)])
    ensures Is(S.Input(v, RETURNED, 7).server, SHEDDING, 1, [RUNNING], [NEAR, HUGE, RETURNED], [], [S.Timer(6, 16), S.Timer(5, 17)])
  {
    Estimates();
    assert v.queue + [RETURNED] == [NEAR, HUGE, RETURNED];
  }

  lemma NearStarts(fx: S.ServerEffects)
    requires Is(fx.server, SHEDDING, 0, [], [HUGE, RETURNED], [], [S.Timer(6, 16), S.Timer(5, 17)]) && fx.out.cancelled == []
    ensures var r := S.BeginService(fx, NEAR, 10);
            && Is(r.server, SHEDDING, 1, [S.Service(10, 3)], [HUGE, RETURNED], [], [S.Timer(6, 16)])
            && r.out.cancelled == [S.TimerEvent(S.Shed, 17, 0, RETURNED.start)]
  {
    assert S.TimerPosition(fx.server.pendingSheds, 5) == 1;
  }

  lemma EndsRunning(v: S.ServerState, task: Task)
    requires Is(v, SHEDDING, 1, [RUNNING], [NEAR, HUGE, RETURNED], [], [S.Timer(6, 16), S.Timer(5, 17)])
    requires task.serviceStartedAt == Some(0)
    ensures var r := S.Complete(v, task, 10);
            && Is(r.server, SHEDDING, 1, [S.Service(10, 3)], [HUGE, RETURNED], [], [S.Timer(6, 16)])
            && r.out.cancelled == [S.TimerEvent(S.Shed, 17, 0, RETURNED.start)]
  {
    var ended := S.Ended(v, task, 10);
    assert S.RemoveInFlight([RUNNING], 0) == [];
    var taken := S.TakeHead(ended, 10);
    NearStarts(taken);
    var begun := S.BeginService(taken, NEAR, 10);
    assert S.DrainQueue(ended, 10) == S.DrainQueue(begun, 10) == begun;
  }

  /** When the queued task starts it cancels the timer of the other: the returned task is left behind one of 100 units,
      with nothing to take it out by its bound of 17. */
  lemma TimersConfused(v: S.ServerState, task: Task)
    returns (near: S.ServerEffects, huge: S.ServerEffects, returned: S.ServerEffects, end: S.ServerEffects)
    requires Is(v, SHEDDING, 1, [RUNNING], [], [], []) && task.serviceStartedAt == Some(0)
    ensures near.server.Valid() && huge.server.Valid() && returned.server.inFlight > 0
    ensures near == S.Input(v, NEAR, 5)
    ensures huge == S.Input(near.server, HUGE, 6)
    ensures returned == S.Input(huge.server, RETURNED, 7)
    ensures end == S.Complete(returned.server, task, 10)
    ensures end.server.queue == [HUGE, RETURNED] && end.server.pendingSheds == [S.Timer(HUGE.start, 16)]
    ensures end.out.cancelled == [S.TimerEvent(S.Shed, 17, 0, RETURNED.start)]
  {
    near := S.Input(v, NEAR, 5);
    NearWaits(v);
    huge := S.Input(near.server, HUGE, 6);
    HugeWaits(near.server);
    returned := S.Input(huge.server, RETURNED, 7);
    ReturnedWaits(huge.server);
    end := S.Complete(returned.server, task, 10);
    EndsRunning(returned.server, task);
  }
}
