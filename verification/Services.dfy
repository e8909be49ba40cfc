/** What a server knows about its running services. The record of running services that the delay estimate reads is
    exact as long as services that started together have equal durations: a completion removes the first record with
    its start time, whatever that record's duration. */
module Services {
  import opened Domain
  import opened Sums
  import opened Clusters
  import S = Servers
  import Slots
  import Wiring

  function Same(x: S.Service): S.Service -> int
  {
    (y: S.Service) => if y == x then 1 else 0
  }

  /** A scheduled completion at server `s` of a service like `x`. */
  function Serving(s: nat, x: S.Service): S.Completion -> int
  {
    (c: S.Completion) =>
      if c.server == s && c.task.serviceStartedAt == Some(x.startedAt) && c.task.duration == x.duration then 1 else 0
  }

  ghost predicate ServicesAt(g: Cluster, s: nat)
  {
    s < |g.servers| && forall x: S.Service :: Sum(g.servers[s].services, Same(x)) == Sum(g.completions, Serving(s, x))
  }

  ghost predicate Pushes(g: Cluster, s: nat)
  {
    s < |g.servers| && g.servers[s].cfg.mode == S.Push
  }

  /** The record of running services of every push server is the multiset of its scheduled completions. */
  ghost predicate ServicesOk(g: Cluster)
  {
    forall s: nat :: Pushes(g, s) ==> ServicesAt(g, s)
  }

  /** Services that started together at a push server run equally long. */
  ghost predicate Unambiguous(g: Cluster)
  {
    forall s: nat :: Pushes(g, s) ==> UnambiguousAt(g, s)
  }

  ghost predicate UnambiguousAt(g: Cluster, s: nat)
  {
    forall c, d ::
      (c in g.completions && d in g.completions && c.server == d.server == s
       && c.task.serviceStartedAt == d.task.serviceStartedAt) ==> c.task.duration == d.task.duration
  }

  // Handlers

  ghost function Recorded(fx: S.ServerEffects, x: S.Service): int
  {
    Sum(fx.server.services, Same(x)) - Sum(fx.out.completions, Serving(fx.server.cfg.index, x))
  }

  lemma BeginAdds(fx: S.ServerEffects, task: Task, now: Time)
    ensures var r := S.BeginService(fx, task, now);
            && r.server.cfg == fx.server.cfg
            && r.server.services == fx.server.services + [S.Service(now, task.duration)]
            && r.out.completions == fx.out.completions
               + [S.Completion(now + task.duration, fx.server.cfg.index, task.(serviceStartedAt := Some(now)))]
  {
  }

  lemma BeginRecords(fx: S.ServerEffects, task: Task, now: Time, x: S.Service)
    ensures Recorded(S.BeginService(fx, task, now), x) == Recorded(fx, x)
    ensures S.BeginService(fx, task, now).server.cfg == fx.server.cfg
  {
    BeginAdds(fx, task, now);
    var begun := S.Completion(now + task.duration, fx.server.cfg.index, task.(serviceStartedAt := Some(now)));
    SumAppend(fx.server.services, S.Service(now, task.duration), Same(x));
    SumAppend(fx.out.completions, begun, Serving(fx.server.cfg.index, x));
  }

  lemma {:induction false} DrainRecords(fx: S.ServerEffects, now: Time, x: S.Service)
    ensures Recorded(S.DrainQueue(fx, now), x) == Recorded(fx, x)
    ensures S.DrainQueue(fx, now).server.cfg == fx.server.cfg
    decreases |fx.server.queue|
  {
    var v := fx.server;
    if v.inFlight < v.cfg.maxConcurrency && v.queue != [] {
      BeginRecords(S.TakeHead(fx, now), v.queue[0], now, x);
      DrainRecords(S.BeginService(S.TakeHead(fx, now), v.queue[0], now), now, x);
    }
  }

  ghost predicate SameServices(v: S.ServerState, fx: S.ServerEffects)
  {
    fx.server.cfg == v.cfg && fx.server.services == v.services && fx.out.completions == []
  }

  lemma EvictionKeepsServices(v: S.ServerState, fx: S.ServerEffects, start: Time, now: Time)
    requires fx.server.queue != [] && SameServices(v, fx)
    ensures SameServices(v, S.ApplyEviction(fx, start, now))
  {
  }

  lemma InputRecords(v: S.ServerState, task: Task, now: Time, x: S.Service)
    requires v.Valid()
    ensures Recorded(S.Input(v, task, now), x) == Sum(v.services, Same(x))
    ensures S.Input(v, task, now).server.cfg == v.cfg
  {
    if v.cfg.mode == S.AmphiQueue {
      BeginRecords(S.Begin(v.(pendingPulls := SaturatingSub(v.pendingPulls, 1))), task, now, x);
    } else if v.cfg.mode == S.Centralized || v.inFlight < v.cfg.maxConcurrency {
      BeginRecords(S.Begin(v), task, now, x);
    } else {
      EvictionKeepsServices(v, S.Begin(S.SampleLevel(v.(queue := v.queue + [task]), now)), task.start, now);
    }
  }

  /** Removing the record of a service: the right one, if all records with its start time are alike. */
  lemma RemovedRecord(services: seq<S.Service>, gone: S.Service, x: S.Service)
    requires Sum(services, Same(gone)) > 0
    requires forall i :: 0 <= i < |services| && services[i].startedAt == gone.startedAt ==> services[i] == gone
    ensures Sum(S.RemoveInFlight(services, gone.startedAt), Same(x)) == Sum(services, Same(x)) - Same(x)(gone)
  {
    var k := SumPositive(services, Same(gone));
    var i := S.ServicePosition(services, gone.startedAt);
    assert services[k] == gone;
    SumRemove(services, i, Same(x));
  }

  /** Exactly when the first record with the start time is the completed service's own, the right record goes. */
  lemma RightRecordIff(services: seq<S.Service>, gone: S.Service)
    requires gone in services
    ensures S.ServicePosition(services, gone.startedAt) < |services|
    ensures (forall x: S.Service :: Sum(S.RemoveInFlight(services, gone.startedAt), Same(x)) == Sum(services, Same(x)) - Same(x)(gone))
       <==> services[S.ServicePosition(services, gone.startedAt)] == gone
  {
    var k :| 0 <= k < |services| && services[k] == gone;
    var i := S.ServicePosition(services, gone.startedAt);
    forall x: S.Service ensures Sum(S.RemoveInFlight(services, gone.startedAt), Same(x)) == Sum(services, Same(x)) - Same(x)(services[i]) {
      SumRemove(services, i, Same(x));
    }
    if services[i] != gone {
      assert Sum(S.RemoveInFlight(services, gone.startedAt), Same(gone)) == Sum(services, Same(gone));
    }
  }

  lemma CompleteRecords(v: S.ServerState, task: Task, now: Time, x: S.Service)
    requires v.inFlight > 0 && task.serviceStartedAt.Some?
    requires var gone := S.Service(task.serviceStartedAt.value, task.duration);
             && Sum(v.services, Same(gone)) > 0
             && (forall i :: 0 <= i < |v.services| && v.services[i].startedAt == gone.startedAt ==> v.services[i] == gone)
    ensures Recorded(S.Complete(v, task, now), x)
         == Sum(v.services, Same(x)) - Same(x)(S.Service(task.serviceStartedAt.value, task.duration))
    ensures S.Complete(v, task, now).server.cfg == v.cfg
  {
    RemovedRecord(v.services, S.Service(task.serviceStartedAt.value, task.duration), x);
    var ended := S.Ended(v, task, now);
    if v.cfg.mode == S.Push {
      DrainRecords(ended, now, x);
    }
  }

  /** A record has a scheduled completion, and the other way round. */
  lemma RecordedRuns(g: Cluster, s: nat, k: nat) returns (i: nat)
    requires ServicesAt(g, s) && k < |g.servers[s].services|
    ensures i < |g.completions| && g.completions[i].server == s
    ensures g.completions[i].task.serviceStartedAt == Some(g.servers[s].services[k].startedAt)
    ensures g.completions[i].task.duration == g.servers[s].services[k].duration
  {
    var x := g.servers[s].services[k];
    SumAtLeast(g.servers[s].services, k, Same(x));
    i := SumPositive(g.completions, Serving(s, x));
  }

  lemma CompletionRecorded(g: Cluster, i: nat)
    requires WellFormed(g) && ServicesOk(g) && Unambiguous(g) && i < |g.completions| && Pushes(g, g.completions[i].server)
    ensures var c := g.completions[i];
            && c.server < |g.servers| && c.task.serviceStartedAt.Some?
            && (var gone := S.Service(c.task.serviceStartedAt.value, c.task.duration);
                var services := g.servers[c.server].services;
                && Sum(services, Same(gone)) > 0
                && (forall j :: 0 <= j < |services| && services[j].startedAt == gone.startedAt ==> services[j] == gone))
  {
    var c := g.completions[i];
    assert CompletionAt(g.topo, c);
    assert ServicesAt(g, c.server) && UnambiguousAt(g, c.server);
    var gone := S.Service(c.task.serviceStartedAt.value, c.task.duration);
    SumAtLeast(g.completions, i, Serving(c.server, gone));
    var services := g.servers[c.server].services;
    forall j: nat | j < |services| && services[j].startedAt == gone.startedAt ensures services[j] == gone {
      var d := RecordedRuns(g, c.server, j);
      assert g.completions[d] in g.completions;
    }
  }

  // Steps

  /** A handler that adds as many records as it schedules completions. */
  lemma ServerServices(g: Cluster, g0: Cluster, t: nat, fx: S.ServerEffects, s: nat)
    requires ServicesAt(g, s) && t < |g0.servers| && g0.servers == g.servers
    requires Slots.Own(fx, t) && fx.server.cfg.index == t
    requires forall x: S.Service ::
               Sum(g0.completions, Serving(s, x)) == Sum(g.completions, Serving(s, x))
                 - (if s == t then Sum(g.servers[t].services, Same(x)) - Recorded(fx, x) else 0)
    ensures ServicesAt(AfterServer(g0, t, fx), s)
  {
    forall x: S.Service
      ensures Sum(AfterServer(g0, t, fx).servers[s].services, Same(x))
           == Sum(AfterServer(g0, t, fx).completions, Serving(s, x))
    {
      SumConcat(g0.completions, fx.out.completions, Serving(s, x));
      if s != t {
        SumZero(fx.out.completions, Serving(s, x));
      }
    }
  }

  lemma TaskServices(g: Cluster, i: nat, s: nat)
    requires WellFormed(g) && ServicesAt(g, s) && i < |g.tasks|
    requires Slots.Own(S.Input(g.servers[g.tasks[i].server], g.tasks[i].task, g.now), g.tasks[i].server)
    ensures ServicesAt(TaskDelivered(g, i), s)
  {
    var m := g.tasks[i];
    assert TaskAt(g.topo, m.server, m.task) && ServerWired(g.topo, m.server);
    var v := g.servers[m.server];
    forall x: S.Service ensures Recorded(S.Input(v, m.task, g.now), x) == Sum(v.services, Same(x)) {
      InputRecords(v, m.task, g.now, x);
    }
    InputRecords(v, m.task, g.now, S.Service(0, 0));
    ServerServices(g, g.(tasks := RemoveAt(g.tasks, i)), m.server, S.Input(v, m.task, g.now), s);
  }

  lemma CompleteKeepsConfig(v: S.ServerState, task: Task, now: Time)
    requires v.inFlight > 0
    ensures S.Complete(v, task, now).server.cfg == v.cfg
  {
    if v.cfg.mode == S.Push {
      DrainRecords(S.Ended(v, task, now), now, S.Service(0, 0));
    }
  }

  lemma CompletionServices(g: Cluster, i: nat, s: nat)
    requires WellFormed(g) && ServicesOk(g) && Unambiguous(g) && i < |g.completions| && Pushes(g, s)
    requires g.servers[g.completions[i].server].inFlight > 0
    requires Slots.Own(S.Complete(g.servers[g.completions[i].server], g.completions[i].task, g.completions[i].at),
                       g.completions[i].server)
    ensures ServicesAt(CompletionFired(g, i), s)
  {
    var c := g.completions[i];
    assert CompletionAt(g.topo, c) && ServerWired(g.topo, c.server) && ServicesAt(g, s);
    var v := g.servers[c.server];
    var fx := S.Complete(v, c.task, c.at);
    var g0 := g.(now := c.at, completions := RemoveAt(g.completions, i));
    if c.server == s {
      CompletionRecorded(g, i);
    }
    forall x: S.Service
      ensures Sum(g0.completions, Serving(s, x)) == Sum(g.completions, Serving(s, x))
                - (if s == c.server then Sum(v.services, Same(x)) - Recorded(fx, x) else 0)
    {
      SumRemove(g.completions, i, Serving(s, x));
      if c.server == s {
        CompleteRecords(v, c.task, c.at, x);
      }
    }
    CompleteKeepsConfig(v, c.task, c.at);
    ServerServices(g, g0, c.server, fx, s);
  }

  lemma QuietServices(g: Cluster, g0: Cluster, t: nat, fx: S.ServerEffects, s: nat)
    requires ServicesAt(g, s) && t < |g0.servers| && g0.servers == g.servers && g0.completions == g.completions
    requires SameServices(g.servers[t], fx)
    ensures ServicesAt(AfterServer(g0, t, fx), s)
  {
    assert g0.completions + [] == g0.completions;
  }

  lemma TimerServices(g: Cluster, i: nat, s: nat)
    requires WellFormed(g) && ServicesAt(g, s) && i < |g.timers|
    ensures ServicesAt(TimerFired(g, i), s)
  {
    var e := g.timers[i];
    assert TimerAt(g.topo, e);
    QuietServices(g, g.(now := e.at, timers := RemoveAt(g.timers, i)), e.server, TimerEffects(g.servers[e.server], e), s);
  }

  lemma IntentServices(g: Cluster, i: nat, s: nat)
    requires WellFormed(g) && ServicesAt(g, s) && i < |g.intents|
    ensures ServicesAt(IntentDelivered(g, i), s)
  {
    var m := g.intents[i];
    assert IntentAt(g.topo, m.server, m.intent);
    QuietServices(g, g.(intents := RemoveAt(g.intents, i)), m.server, S.ReceiveIntent(g.servers[m.server], m.intent), s);
  }

  lemma InitialPullServices(g: Cluster, i: nat, s: nat)
    requires WellFormed(g) && ServicesAt(g, s) && i < |g.initialPulls|
    ensures ServicesAt(InitialPullFired(g, i), s)
  {
    var q := g.initialPulls[i];
    QuietServices(g, g.(now := q.at, initialPulls := RemoveAt(g.initialPulls, i)), q.server,
                  S.RequestPull(g.servers[q.server]), s);
  }

  /** A server's effects are its own. */
  lemma StepOwn(g: Cluster, step: Step)
    requires WellFormed(g) && Slots.SlotsOk(g) && Enabled(g, step)
    ensures step.DeliverTask? ==>
              var m := g.tasks[step.i]; Slots.Own(S.Input(g.servers[m.server], m.task, g.now), m.server)
    ensures step.FireCompletion? ==>
              var c := g.completions[step.i]; Slots.Own(S.Complete(g.servers[c.server], c.task, c.at), c.server)
  {
    if step.DeliverTask? {
      var m := g.tasks[step.i];
      assert TaskAt(g.topo, m.server, m.task) && ServerWired(g.topo, m.server) && Slots.SlotsAt(g, m.server);
      InputOwn(g.servers[m.server], m.task, g.now);
    } else if step.FireCompletion? {
      var c := g.completions[step.i];
      assert CompletionAt(g.topo, c) && ServerWired(g.topo, c.server) && Slots.SlotsAt(g, c.server);
      var v := g.servers[c.server];
      assert v.intents != [] ==> IntentAt(g.topo, c.server, v.intents[0]);
      Slots.CompleteStarts(v, c.task, c.at, Slots.Promised(g, c.server));
    }
  }

  lemma InputOwn(v: S.ServerState, task: Task, now: Time)
    requires v.Valid()
    ensures Slots.Own(S.Input(v, task, now), v.cfg.index)
  {
    if v.cfg.mode == S.Push && v.inFlight >= v.cfg.maxConcurrency {
      var queued := S.Begin(S.SampleLevel(v.(queue := v.queue + [task]), now));
      EvictionKeepsServices(v, queued, task.start, now);
      assert S.ApplyEviction(queued, task.start, now).out.pulls == [];
    }
  }

  lemma NextServicesAt(g: Cluster, step: Step, s: nat)
    requires WellFormed(g) && Slots.SlotsOk(g) && Enabled(g, step) && ServicesOk(g) && Unambiguous(g) && Pushes(g, s)
    ensures ServicesAt(Next(g, step), s)
  {
    assert ServicesAt(g, s);
    StepOwn(g, step);
    match step
    case DeliverTask(i) => TaskServices(g, i, s);
    case DeliverIntent(i) => IntentServices(g, i, s);
    case FireCompletion(i) => CompletionServices(g, i, s);
    case FireInitialPull(i) => InitialPullServices(g, i, s);
    case FireTimer(i) => TimerServices(g, i, s);
    case _ =>
  }

  lemma NextKeepsServices(g: Cluster, step: Step)
    requires WellFormed(g) && Slots.SlotsOk(g) && Enabled(g, step) && ServicesOk(g) && Unambiguous(g)
    ensures ServicesOk(Next(g, step))
  {
    Wiring.NextKeepsWellFormed(g, step);
    forall s: nat | Pushes(Next(g, step), s) ensures ServicesAt(Next(g, step), s) {
      assert ServerAt(g.topo, s, g.servers[s]) && ServerAt(g.topo, s, Next(g, step).servers[s]);
      NextServicesAt(g, step, s);
    }
  }

  lemma InitialServices(g: Cluster)
    requires Initial(g)
    ensures ServicesOk(g)
  {
  }

  /** Every push server has one slot. */
  ghost predicate OneSlot(p: Topology)
  {
    forall s :: 0 <= s < |p.servers| && p.servers[s].mode == S.Push ==> p.servers[s].maxConcurrency == 1
  }

  /** With one slot there is never more than one service, so the records are exact unconditionally. */
  lemma OneSlotUnambiguous(g: Cluster)
    requires WellFormed(g) && Slots.SlotsOk(g) && OneSlot(g.topo)
    ensures Unambiguous(g)
  {
    forall s: nat, i: nat, j: nat | Pushes(g, s) && i < j < |g.completions| && g.completions[i].server == s
      ensures g.completions[j].server != s
    {
      assert ServerAt(g.topo, s, g.servers[s]) && Slots.SlotsAt(g, s);
      SumRemove(g.completions, j, Slots.RunningAt(s));
      SumAtLeast(RemoveAt(g.completions, j), i, Slots.RunningAt(s));
    }
  }
}
