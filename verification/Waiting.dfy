/** A real-time bound on waiting. At a server with a delay threshold D, evicting or shedding, every task leaves the
    queue at most D after it came: it starts, is evicted or is shed. A task whose delay estimate was at most D when
    it came starts early enough to finish by then, whatever comes later. */
module Waiting {
  import opened Domain
  import opened Sums
  import opened Clusters
  import S = Servers
  import Services
  import Slots
  import Timing
  import Bounce

  /** The delay threshold that a server's policy promises, if any. */
  function Threshold(c: S.ServerConfig): Option<nat>
  {
    match c.eviction
    case Some(QueueDelay(threshold, _)) => Some(threshold)
    case Some(Combined(_, threshold)) => Some(threshold)
    case Some(QueueDepth(_)) => None
    case None => c.shedding
  }

  function KindOf(c: S.ServerConfig): S.TimerKind
  {
    if c.eviction.Some? then S.Evict else S.Shed
  }

  function Ends(x: S.Service): nat
  {
    x.startedAt + x.duration
  }

  /** A task came to its server in the instant it was dispatched. */
  function Came(t: Task): Time
  {
    if t.dispatchedAt.Some? then t.dispatchedAt.value else 0
  }

  /** Even if only one slot served the tasks up to `i`, from the end of some running service on, they would be
      finished within the threshold. */
  ghost predicate OnTrack(services: seq<S.Service>, queue: seq<Task>, i: nat, d: nat)
    requires i < |queue|
  {
    exists k :: 0 <= k < |services| && Ends(services[k]) + S.QueueWork(queue[..i + 1]) <= Came(queue[i]) + d
  }

  /** The task's timer is scheduled. */
  ghost predicate Guarded(timers: seq<S.TimerEvent>, c: S.ServerConfig, t: Task, d: nat)
  {
    S.TimerEvent(KindOf(c), Came(t) + d, c.index, t.start) in timers
  }

  ghost predicate WaitAt(v: S.ServerState, timers: seq<S.TimerEvent>, i: nat, d: nat)
    requires i < |v.queue|
  {
    OnTrack(v.services, v.queue, i, d) || Guarded(timers, v.cfg, v.queue[i], d)
  }

  ghost predicate Waits(v: S.ServerState, timers: seq<S.TimerEvent>, d: nat)
  {
    forall i :: 0 <= i < |v.queue| ==> WaitAt(v, timers, i, d)
  }

  ghost predicate WaitsAt(g: Cluster, s: nat)
  {
    s < |g.servers| &&
    (g.servers[s].cfg.mode == S.Push && Threshold(g.servers[s].cfg).Some? ==>
       Waits(g.servers[s], g.timers, Threshold(g.servers[s].cfg).value))
  }

  ghost predicate WaitsOk(g: Cluster)
  {
    forall s: nat :: s < |g.servers| ==> WaitsAt(g, s)
  }

  /** Every task in transit was dispatched in this instant. */
  ghost predicate Fresh(g: Cluster)
  {
    forall i :: 0 <= i < |g.tasks| ==> g.tasks[i].task.dispatchedAt == Some(g.now)
  }

  /** The starts of the tasks in a server's queue are distinct: timers are filed under them. */
  ghost predicate DistinctStarts(queue: seq<Task>)
  {
    forall i, j :: 0 <= i < j < |queue| ==> queue[i].start != queue[j].start
  }

  /** The assumptions under which tasks and services can be told apart by the times the server files them under. */
  ghost predicate Clear(g: Cluster)
  {
    && Services.Unambiguous(g)
    && (forall s :: 0 <= s < |g.servers| ==> DistinctStarts(g.servers[s].queue))
  }

  // Work ahead

  lemma {:induction false} WorkFromHead(queue: seq<Task>)
    requires queue != []
    ensures S.QueueWork(queue) == queue[0].duration + S.QueueWork(queue[1..])
  {
    if |queue| > 1 {
      var front := queue[..|queue| - 1];
      WorkFromHead(front);
      assert front[1..] == queue[1..][..|queue| - 2];
    }
  }

  lemma {:induction false} WorkConcat(a: seq<Task>, b: seq<Task>)
    ensures S.QueueWork(a + b) == S.QueueWork(a) + S.QueueWork(b)
  {
    if b == [] {
      assert a + b == a;
    } else {
      WorkConcat(a, b[..|b| - 1]);
      assert (a + b)[..|a + b| - 1] == a + b[..|b| - 1];
    }
  }

  /** Taking any task out of the queue brings the others forward, or leaves them where they are. */
  lemma RemovalBringsForward(services: seq<S.Service>, queue: seq<Task>, j: nat, i: nat, d: nat)
    requires j < |queue| && i < |queue| && i != j && OnTrack(services, queue, i, d)
    ensures var now := if i < j then i else i - 1;
            RemoveAt(queue, j)[now] == queue[i] && OnTrack(services, RemoveAt(queue, j), now, d)
  {
    var rest := RemoveAt(queue, j);
    if i < j {
      assert rest[..i + 1] == queue[..i + 1];
    } else {
      assert rest[..i] == queue[..j] + queue[j + 1..i + 1];
      assert queue[..i + 1] == queue[..j] + ([queue[j]] + queue[j + 1..i + 1]);
      WorkConcat(queue[..j], queue[j + 1..i + 1]);
      WorkConcat(queue[..j], [queue[j]] + queue[j + 1..i + 1]);
      WorkConcat([queue[j]], queue[j + 1..i + 1]);
    }
  }

  lemma RemovalKeepsWaits(v: S.ServerState, w: S.ServerState, timers: seq<S.TimerEvent>, rest: seq<S.TimerEvent>, j: nat, d: nat)
    requires j < |v.queue| && w.queue == RemoveAt(v.queue, j) && w.services == v.services && w.cfg == v.cfg
    requires Waits(v, timers, d)
    requires forall i :: 0 <= i < |v.queue| && i != j && Guarded(timers, v.cfg, v.queue[i], d)
               ==> Guarded(rest, v.cfg, v.queue[i], d)
    ensures Waits(w, rest, d)
  {
    forall i: nat | i < |w.queue| ensures WaitAt(w, rest, i, d) {
      var was := if i < j then i else i + 1;
      assert WaitAt(v, timers, was, d) && w.queue[i] == v.queue[was];
      if OnTrack(v.services, v.queue, was, d) {
        RemovalBringsForward(v.services, v.queue, j, was, d);
      }
    }
  }

  // Coming

  /** The running services of a server, as its record shows them at `now`. */
  ghost predicate Running(services: seq<S.Service>, now: Time)
  {
    services != [] && forall k :: 0 <= k < |services| ==> services[k].startedAt <= now <= Ends(services[k])
  }

  /** The delay estimate is exact about the first slot to become free. */
  lemma EstimateMeans(services: seq<S.Service>, queue: seq<Task>, now: Time, d: nat)
    requires Running(services, now) && queue != [] && Came(queue[|queue| - 1]) == now
    ensures S.IdealDelayEstimate(queue, services, now) <= d <==> OnTrack(services, queue, |queue| - 1, d)
  {
    assert queue[..|queue|] == queue;
    if S.IdealDelayEstimate(queue, services, now) <= d {
      var k :| 0 <= k < |services| && S.RemainingService(services[k], now) == S.MinRemaining(services, now);
      assert Ends(services[k]) + S.QueueWork(queue) <= now + d;
    }
    if OnTrack(services, queue, |queue| - 1, d) {
      var k :| 0 <= k < |services| && Ends(services[k]) + S.QueueWork(queue[..|queue|]) <= now + d;
      assert S.MinRemaining(services, now) <= S.RemainingService(services[k], now);
    }
  }

  /** A handler that starts nothing and cancels nothing. */
  ghost predicate StartsNothing(v: S.ServerState, fx: S.ServerEffects)
  {
    fx.server.services == v.services && fx.server.cfg == v.cfg && fx.out.cancelled == [] && fx.out.completions == []
    && fx.server.inFlight == v.inFlight
  }

  /** The task has been evicted or shed at `now`. */
  ghost predicate Left(fx: S.ServerEffects, task: Task, now: Time)
  {
    || (fx.out.evicted == [task.(evictedAt := Some(now))] && fx.out.shed == [])
    || (fx.out.evicted == [] && fx.out.shed == [ShedMsg(task.lbId, task.(shedAt := Some(now)))])
  }

  /** What a full server does with a task that comes: it leaves again at once, or it waits, on track or guarded. */
  ghost predicate Admitted(v: S.ServerState, task: Task, now: Time, d: nat, fx: S.ServerEffects)
  {
    || (fx.server.queue == v.queue && fx.out.scheduled == [] && Left(fx, task, now))
    || (fx.server.queue == v.queue + [task] && fx.out.evicted == [] && fx.out.shed == []
        && (OnTrack(v.services, fx.server.queue, |v.queue|, d) || Guarded(fx.out.scheduled, v.cfg, task, d)))
  }

  lemma EvictionAdmits(v: S.ServerState, task: Task, now: Time, d: nat)
    requires v.cfg.eviction.Some? && Threshold(v.cfg) == Some(d)
    requires Running(v.services, now) && task.dispatchedAt == Some(now)
    ensures var queued := S.Begin(S.SampleLevel(v.(queue := v.queue + [task]), now));
            var fx := S.ApplyEviction(queued, task.start, now);
            StartsNothing(v, fx) && Admitted(v, task, now, d, fx)
  {
    var queue := v.queue + [task];
    EstimateMeans(v.services, queue, now, d);
    assert RemoveAt(queue, |v.queue|) == v.queue;
    assert queue[|v.queue|] == task;
    var event := S.TimerEvent(S.Evict, now + d, v.cfg.index, task.start);
    assert event in [event];
  }

  lemma SheddingAdmits(v: S.ServerState, task: Task, now: Time, d: nat)
    requires v.cfg.shedding == Some(d) && v.cfg.eviction.None?
    requires Running(v.services, now) && task.dispatchedAt == Some(now)
    ensures var queued := S.Begin(S.SampleLevel(v.(queue := v.queue + [task]), now));
            var fx := S.ApplyShedding(queued, task.start, now);
            StartsNothing(v, fx) && Admitted(v, task, now, d, fx)
  {
    var queue := v.queue + [task];
    EstimateMeans(v.services, queue, now, d);
    assert RemoveAt(queue, |v.queue|) == v.queue;
    assert queue[|v.queue|] == task;
    var event := S.TimerEvent(S.Shed, now + d, v.cfg.index, task.start);
    assert event in [event];
  }

  lemma InputAdmits(v: S.ServerState, task: Task, now: Time, d: nat)
    requires v.Valid() && v.cfg.mode == S.Push && v.inFlight >= v.cfg.maxConcurrency && Threshold(v.cfg) == Some(d)
    requires Running(v.services, now) && task.dispatchedAt == Some(now)
    ensures var fx := S.Input(v, task, now); StartsNothing(v, fx) && Admitted(v, task, now, d, fx)
  {
    if v.cfg.eviction.Some? {
      EvictionAdmits(v, task, now, d);
    } else {
      SheddingAdmits(v, task, now, d);
    }
  }

  // Starting

  /** A completion at a full server with a queue starts exactly the task at the head. */
  lemma CompleteTakesHead(v: S.ServerState, task: Task, now: Time)
    requires v.cfg.mode == S.Push && 0 < v.inFlight == v.cfg.maxConcurrency && v.queue != []
    ensures var fx, head := S.Complete(v, task, now), v.queue[0];
            && fx.server.queue == v.queue[1..] && fx.server.cfg == v.cfg
            && |fx.server.services| > 0
            && fx.server.services[|fx.server.services| - 1] == S.Service(now, head.duration)
            && fx.out.completions == [S.Completion(now + head.duration, v.cfg.index, head.(serviceStartedAt := Some(now)))]
            && (forall i :: 0 <= i < |fx.out.cancelled| ==> fx.out.cancelled[i].start == head.start)
            && fx.out.scheduled == [] && fx.out.evicted == [] && fx.out.shed == []
  {
    var ended := S.Ended(v, task, now);
    var next := S.BeginService(S.TakeHead(ended, now), v.queue[0], now);
    assert next.server.inFlight == v.cfg.maxConcurrency;
    assert S.DrainQueue(ended, now) == S.DrainQueue(next, now) == next;
    assert RemoveAt(v.queue, 0) == v.queue[1..];
  }

  /** When the head starts, the tasks behind it stay on track, with the head itself as the witness. */
  lemma HeadMakesWay(services: seq<S.Service>, after: seq<S.Service>, queue: seq<Task>, now: Time, i: nat, d: nat)
    requires 0 < i < |queue| && |after| > 0 && after[|after| - 1] == S.Service(now, queue[0].duration)
    requires forall k :: 0 <= k < |services| ==> now <= Ends(services[k])
    requires OnTrack(services, queue, i, d)
    ensures OnTrack(after, queue[1..], i - 1, d)
  {
    WorkFromHead(queue[..i + 1]);
    assert queue[..i + 1][1..] == queue[1..][..i];
    var last := |after| - 1;
    assert Ends(after[last]) + S.QueueWork(queue[1..][..i]) <= Came(queue[1..][i - 1]) + d;
  }

  lemma HeadKeepsWaits(v: S.ServerState, w: S.ServerState, timers: seq<S.TimerEvent>, rest: seq<S.TimerEvent>, now: Time, d: nat)
    requires v.queue != [] && w.queue == v.queue[1..] && w.cfg == v.cfg && |w.services| > 0
    requires w.services[|w.services| - 1] == S.Service(now, v.queue[0].duration)
    requires forall k :: 0 <= k < |v.services| ==> now <= Ends(v.services[k])
    requires Waits(v, timers, d)
    requires forall i :: 1 <= i < |v.queue| && Guarded(timers, v.cfg, v.queue[i], d) ==> Guarded(rest, v.cfg, v.queue[i], d)
    ensures Waits(w, rest, d)
  {
    forall i: nat | i < |w.queue| ensures WaitAt(w, rest, i, d) {
      assert WaitAt(v, timers, i + 1, d) && w.queue[i] == v.queue[i + 1];
      if OnTrack(v.services, v.queue, i + 1, d) {
        HeadMakesWay(v.services, w.services, v.queue, now, i + 1, d);
      }
    }
  }

  // The record of running services in a reachable state

  lemma FullMeansRunning(g: Cluster, s: nat)
    requires WellFormed(g) && Timing.Timely(g) && Services.ServicesAt(g, s) && Slots.SlotsAt(g, s)
    requires g.servers[s].inFlight > 0
    ensures Running(g.servers[s].services, g.now)
  {
    var services := g.servers[s].services;
    var i := SumPositive(g.completions, Slots.RunningAt(s));
    var c := g.completions[i];
    assert CompletionAt(g.topo, c);
    var x := S.Service(c.task.serviceStartedAt.value, c.task.duration);
    SumAtLeast(g.completions, i, Services.Serving(s, x));
    var j := SumPositive(services, Services.Same(x));
    forall k: nat | k < |services| ensures services[k].startedAt <= g.now <= Ends(services[k]) {
      RecordEndsLater(g, s, k, g.now);
    }
  }

  /** No running service ends before the earliest scheduled event. */
  lemma RecordEndsLater(g: Cluster, s: nat, k: nat, at: Time)
    requires WellFormed(g) && Timing.Timely(g) && Services.ServicesAt(g, s) && k < |g.servers[s].services|
    requires Earliest(g, at)
    ensures g.servers[s].services[k].startedAt <= g.now && at <= Ends(g.servers[s].services[k])
  {
    var i := Services.RecordedRuns(g, s, k);
    assert CompletionAt(g.topo, g.completions[i]) && Timing.Started(g.completions[i], g.now);
  }

  /** Whatever happens next happens before any task has been in the queue for longer than the threshold. */
  lemma StillInTime(g: Cluster, s: nat, i: nat, d: nat, at: Time)
    requires WellFormed(g) && Timing.Timely(g) && Services.ServicesAt(g, s) && i < |g.servers[s].queue|
    requires WaitAt(g.servers[s], g.timers, i, d) && Earliest(g, at)
    ensures at <= Came(g.servers[s].queue[i]) + d
    ensures OnTrack(g.servers[s].services, g.servers[s].queue, i, d) ==>
              at + S.QueueWork(g.servers[s].queue[..i + 1]) <= Came(g.servers[s].queue[i]) + d
  {
    var v := g.servers[s];
    if OnTrack(v.services, v.queue, i, d) {
      var k :| 0 <= k < |v.services| && Ends(v.services[k]) + S.QueueWork(v.queue[..i + 1]) <= Came(v.queue[i]) + d;
      RecordEndsLater(g, s, k, at);
    } else {
      var e := S.TimerEvent(KindOf(v.cfg), Came(v.queue[i]) + d, v.cfg.index, v.queue[i].start);
      assert e in g.timers;
    }
  }

  // Timers

  lemma {:induction false} FirstKept(timers: seq<S.TimerEvent>, event: S.TimerEvent, e: S.TimerEvent)
    requires e in timers && e != event
    ensures e in WithoutFirst(timers, event)
  {
    if timers[0] != event && e != timers[0] {
      FirstKept(timers[1..], event, e);
    }
  }

  lemma {:induction false} NotCancelled(timers: seq<S.TimerEvent>, cancelled: seq<S.TimerEvent>, e: S.TimerEvent)
    requires e in timers && e !in cancelled
    ensures e in CancelAll(timers, cancelled)
    decreases |cancelled|
  {
    if cancelled != [] {
      FirstKept(timers, cancelled[0], e);
      NotCancelled(WithoutFirst(timers, cancelled[0]), cancelled[1..], e);
    }
  }

  ghost predicate CancelsOwn(fx: S.ServerEffects, s: nat)
  {
    forall i :: 0 <= i < |fx.out.cancelled| ==> fx.out.cancelled[i].server == s
  }

  lemma BeginCancelsOwn(fx: S.ServerEffects, task: Task, now: Time, s: nat)
    requires fx.server.cfg.index == s && CancelsOwn(fx, s)
    ensures CancelsOwn(S.BeginService(fx, task, now), s) && S.BeginService(fx, task, now).server.cfg == fx.server.cfg
  {
  }

  lemma {:induction false} DrainCancelsOwn(fx: S.ServerEffects, now: Time, s: nat)
    requires fx.server.cfg.index == s && CancelsOwn(fx, s)
    ensures CancelsOwn(S.DrainQueue(fx, now), s)
    decreases |fx.server.queue|
  {
    var v := fx.server;
    if v.inFlight < v.cfg.maxConcurrency && v.queue != [] {
      BeginCancelsOwn(S.TakeHead(fx, now), v.queue[0], now, s);
      DrainCancelsOwn(S.BeginService(S.TakeHead(fx, now), v.queue[0], now), now, s);
    }
  }

  lemma EvictionCancelsOwn(fx: S.ServerEffects, start: Time, now: Time, s: nat)
    requires fx.server.queue != [] && CancelsOwn(fx, s)
    ensures CancelsOwn(S.ApplyEviction(fx, start, now), s)
  {
  }

  lemma InputCancelsOwn(v: S.ServerState, task: Task, now: Time)
    requires v.Valid()
    ensures CancelsOwn(S.Input(v, task, now), v.cfg.index)
  {
    if v.cfg.mode == S.AmphiQueue {
      BeginCancelsOwn(S.Begin(v.(pendingPulls := SaturatingSub(v.pendingPulls, 1))), task, now, v.cfg.index);
    } else if v.cfg.mode == S.Centralized || v.inFlight < v.cfg.maxConcurrency {
      BeginCancelsOwn(S.Begin(v), task, now, v.cfg.index);
    } else {
      EvictionCancelsOwn(S.Begin(S.SampleLevel(v.(queue := v.queue + [task]), now)), task.start, now, v.cfg.index);
    }
  }

  lemma CompleteCancelsOwn(v: S.ServerState, task: Task, now: Time)
    requires v.inFlight > 0
    ensures CancelsOwn(S.Complete(v, task, now), v.cfg.index)
  {
    if v.cfg.mode == S.Push {
      DrainCancelsOwn(S.Ended(v, task, now), now, v.cfg.index);
    }
  }

  // Steps

  /** What happens at server `t` does not disturb the queue of server `s`. */
  lemma ElsewhereKeepsWaits(g: Cluster, g0: Cluster, t: nat, fx: S.ServerEffects, s: nat)
    requires WaitsAt(g, s) && t < |g0.servers| && g0.servers == g.servers && s != t
    requires g.servers[s].cfg.index == s && CancelsOwn(fx, t)
    requires forall e :: e in g.timers && e.server == s ==> e in g0.timers
    ensures WaitsAt(AfterServer(g0, t, fx), s)
  {
    var v, h := g.servers[s], AfterServer(g0, t, fx);
    if v.cfg.mode == S.Push && Threshold(v.cfg).Some? {
      var d := Threshold(v.cfg).value;
      forall i: nat | i < |v.queue| ensures WaitAt(v, h.timers, i, d) {
        assert WaitAt(v, g.timers, i, d);
        StillGuarded(g0.timers, fx.out.cancelled, fx.out.scheduled, v.cfg, v.queue[i], d);
      }
    }
  }

  lemma StillGuarded(timers: seq<S.TimerEvent>, cancelled: seq<S.TimerEvent>, more: seq<S.TimerEvent>,
                     c: S.ServerConfig, t: Task, d: nat)
    requires forall i :: 0 <= i < |cancelled| ==> cancelled[i].server != c.index || cancelled[i].start != t.start
    ensures Guarded(timers, c, t, d) ==> Guarded(CancelAll(timers, cancelled) + more, c, t, d)
  {
    if Guarded(timers, c, t, d) {
      NotCancelled(timers, cancelled, S.TimerEvent(KindOf(c), Came(t) + d, c.index, t.start));
    }
  }

  ghost predicate Ready(g: Cluster)
  {
    && WellFormed(g) && Timing.Timely(g) && Services.ServicesOk(g) && Slots.SlotsOk(g)
    && WaitsOk(g) && Fresh(g) && Clear(g)
  }

  lemma AdmittedWaits(v: S.ServerState, timers: seq<S.TimerEvent>, task: Task, now: Time, d: nat, fx: S.ServerEffects)
    requires Waits(v, timers, d) && StartsNothing(v, fx) && Admitted(v, task, now, d, fx)
    ensures Waits(fx.server, timers + fx.out.scheduled, d)
  {
    var w := fx.server;
    forall i: nat | i < |w.queue| ensures WaitAt(w, timers + fx.out.scheduled, i, d) {
      if i < |v.queue| {
        assert WaitAt(v, timers, i, d);
        assert w.queue[..i + 1] == v.queue[..i + 1];
      } else {
        assert w.queue == v.queue + [task] && i == |v.queue|;
      }
    }
  }

  lemma TaskWaits(g: Cluster, i: nat, s: nat)
    requires Ready(g) && i < |g.tasks| && s < |g.servers|
    ensures WaitsAt(TaskDelivered(g, i), s)
  {
    var m := g.tasks[i];
    assert TaskAt(g.topo, m.server, m.task) && WaitsAt(g, s);
    assert ServerWired(g.topo, s) && ServerWired(g.topo, m.server);
    var v := g.servers[m.server];
    if m.server != s {
      InputCancelsOwn(v, m.task, g.now);
      ElsewhereKeepsWaits(g, g.(tasks := RemoveAt(g.tasks, i)), m.server, S.Input(v, m.task, g.now), s);
    } else if v.cfg.mode == S.Push && Threshold(v.cfg).Some? {
      TaskWaitsHere(g, i);
    }
  }

  lemma TaskWaitsHere(g: Cluster, i: nat)
    requires Ready(g) && i < |g.tasks|
    requires g.tasks[i].server < |g.servers| && g.servers[g.tasks[i].server].cfg.mode == S.Push
    requires Threshold(g.servers[g.tasks[i].server].cfg).Some?
    ensures WaitsAt(TaskDelivered(g, i), g.tasks[i].server)
  {
    var m := g.tasks[i];
    var v := g.servers[m.server];
    var d := Threshold(v.cfg).value;
    assert WaitsAt(g, m.server) && Slots.SlotsAt(g, m.server) && Services.Pushes(g, m.server);
    assert ServerAt(g.topo, m.server, v);
    if v.inFlight < v.cfg.maxConcurrency {
      assert v.queue == [];
      assert S.Input(v, m.task, g.now).server.queue == [];
    } else {
      FullMeansRunning(g, m.server);
      InputAdmits(v, m.task, g.now, d);
      AdmittedWaits(v, g.timers, m.task, g.now, d, S.Input(v, m.task, g.now));
    }
  }

  lemma CompleteWaits(v: S.ServerState, timers: seq<S.TimerEvent>, task: Task, at: Time, d: nat)
    requires v.cfg.mode == S.Push && v.inFlight > 0 && (v.queue != [] ==> v.inFlight == v.cfg.maxConcurrency)
    requires Waits(v, timers, d) && DistinctStarts(v.queue)
    requires forall k :: 0 <= k < |v.services| ==> at <= Ends(v.services[k])
    ensures var fx := S.Complete(v, task, at);
            Waits(fx.server, CancelAll(timers, fx.out.cancelled) + fx.out.scheduled, d)
  {
    var fx := S.Complete(v, task, at);
    if v.queue == [] {
      assert S.DrainQueue(S.Ended(v, task, at), at) == S.Ended(v, task, at);
    } else {
      CompleteTakesHead(v, task, at);
      var rest := CancelAll(timers, fx.out.cancelled) + fx.out.scheduled;
      forall j: nat | 1 <= j < |v.queue| && Guarded(timers, v.cfg, v.queue[j], d)
        ensures Guarded(rest, v.cfg, v.queue[j], d)
      {
        StillGuarded(timers, fx.out.cancelled, fx.out.scheduled, v.cfg, v.queue[j], d);
      }
      HeadKeepsWaits(v, fx.server, timers, rest, at, d);
    }
  }

  lemma CompletionWaits(g: Cluster, i: nat, s: nat)
    requires Ready(g) && i < |g.completions| && Enabled(g, FireCompletion(i)) && s < |g.servers|
    ensures WaitsAt(CompletionFired(g, i), s)
  {
    var c := g.completions[i];
    assert CompletionAt(g.topo, c) && WaitsAt(g, s);
    assert ServerWired(g.topo, s) && ServerWired(g.topo, c.server);
    var v := g.servers[c.server];
    Services.CompleteKeepsConfig(v, c.task, c.at);
    if c.server != s {
      CompleteCancelsOwn(v, c.task, c.at);
      ElsewhereKeepsWaits(g, g.(now := c.at, completions := RemoveAt(g.completions, i)), c.server,
                          S.Complete(v, c.task, c.at), s);
    } else if v.cfg.mode == S.Push && Threshold(v.cfg).Some? {
      assert Slots.SlotsAt(g, s) && Services.Pushes(g, s) && DistinctStarts(v.queue);
      forall k: nat | k < |v.services| ensures c.at <= Ends(v.services[k]) {
        RecordEndsLater(g, s, k, c.at);
      }
      CompleteWaits(v, g.timers, c.task, c.at, Threshold(v.cfg).value);
    }
  }

  lemma TimerWaits(g: Cluster, i: nat, s: nat)
    requires Ready(g) && i < |g.timers| && s < |g.servers|
    ensures WaitsAt(TimerFired(g, i), s)
  {
    var e := g.timers[i];
    assert TimerAt(g.topo, e) && WaitsAt(g, s);
    assert ServerWired(g.topo, s) && ServerWired(g.topo, e.server);
    var g0 := g.(now := e.at, timers := RemoveAt(g.timers, i));
    if e.server != s {
      forall f | f in g.timers && f.server == s ensures f in g0.timers {
        Bounce.Kept(g.timers, i, f);
      }
      ElsewhereKeepsWaits(g, g0, e.server, TimerEffects(g.servers[e.server], e), s);
    } else if g.servers[s].cfg.mode == S.Push && Threshold(g.servers[s].cfg).Some? {
      TimerWaitsHere(g, i);
    }
  }

  lemma TimerWaitsHere(g: Cluster, i: nat)
    requires Ready(g) && i < |g.timers| && g.timers[i].server < |g.servers|
    requires Threshold(g.servers[g.timers[i].server].cfg).Some? && g.servers[g.timers[i].server].cfg.mode == S.Push
    ensures WaitsAt(TimerFired(g, i), g.timers[i].server)
  {
    var e := g.timers[i];
    var v := g.servers[e.server];
    var d := Threshold(v.cfg).value;
    assert WaitsAt(g, e.server) && DistinctStarts(v.queue);
    var fx := TimerEffects(v, e);
    var rest := RemoveAt(g.timers, i);
    var j := S.TaskPosition(v.queue, e.start);
    forall k: nat | k < |v.queue| && k != j && Guarded(g.timers, v.cfg, v.queue[k], d)
      ensures Guarded(rest, v.cfg, v.queue[k], d)
    {
      Bounce.Kept(g.timers, i, S.TimerEvent(KindOf(v.cfg), Came(v.queue[k]) + d, v.cfg.index, v.queue[k].start));
    }
    assert CancelAll(rest, fx.out.cancelled) + fx.out.scheduled == rest;
    if j < |v.queue| {
      RemovalKeepsWaits(v, fx.server, g.timers, rest, j, d);
    } else {
      forall k: nat | k < |v.queue| ensures WaitAt(fx.server, rest, k, d) {
        assert WaitAt(v, g.timers, k, d);
      }
    }
  }

  lemma QuietWaits(g: Cluster, g0: Cluster, t: nat, fx: S.ServerEffects, s: nat)
    requires WaitsAt(g, s) && t < |g0.servers| && g0.servers == g.servers && g0.timers == g.timers
    requires fx.server.cfg == g.servers[t].cfg && fx.server.queue == g.servers[t].queue
    requires fx.server.services == g.servers[t].services && fx.out.cancelled == [] && fx.out.scheduled == []
    ensures WaitsAt(AfterServer(g0, t, fx), s)
  {
    assert CancelAll(g0.timers, []) + [] == g0.timers;
    var v, w := g.servers[s], AfterServer(g0, t, fx).servers[s];
    if v.cfg.mode == S.Push && Threshold(v.cfg).Some? {
      var d := Threshold(v.cfg).value;
      forall i: nat | i < |w.queue| ensures WaitAt(w, g0.timers, i, d) {
        assert WaitAt(v, g.timers, i, d);
      }
    }
  }

  lemma IntentWaits(g: Cluster, i: nat, s: nat)
    requires WellFormed(g) && WaitsAt(g, s) && i < |g.intents|
    ensures WaitsAt(IntentDelivered(g, i), s)
  {
    var m := g.intents[i];
    assert IntentAt(g.topo, m.server, m.intent);
    QuietWaits(g, g.(intents := RemoveAt(g.intents, i)), m.server, S.ReceiveIntent(g.servers[m.server], m.intent), s);
  }

  lemma InitialPullWaits(g: Cluster, i: nat, s: nat)
    requires WellFormed(g) && WaitsAt(g, s) && i < |g.initialPulls|
    ensures WaitsAt(InitialPullFired(g, i), s)
  {
    var q := g.initialPulls[i];
    QuietWaits(g, g.(now := q.at, initialPulls := RemoveAt(g.initialPulls, i)), q.server,
               S.RequestPull(g.servers[q.server]), s);
  }

  lemma NextWaitsAt(g: Cluster, step: Step, s: nat)
    requires Ready(g) && Enabled(g, step) && s < |g.servers|
    ensures WaitsAt(Next(g, step), s)
  {
    assert WaitsAt(g, s);
    match step
    case DeliverTask(i) => TaskWaits(g, i, s);
    case DeliverIntent(i) => IntentWaits(g, i, s);
    case FireCompletion(i) => CompletionWaits(g, i, s);
    case FireInitialPull(i) => InitialPullWaits(g, i, s);
    case FireTimer(i) => TimerWaits(g, i, s);
    case _ =>
  }
}
