/** Timers belong to queued tasks. As long as the starts of the tasks in a queue differ, each task has at most one timer, and
    a scheduled timer is one that the server keeps for a task that is still in its queue. */
module Timers {
  import opened Domain
  import opened Sums
  import opened Clusters
  import S = Servers
  import Slots
  import Waiting
  import Wiring

  /** The timers that a server keeps for its policy; it never has both kinds. */
  function Kept(v: S.ServerState): seq<S.Timer>
  {
    if v.cfg.eviction.Some? then v.pendingEvictions else v.pendingSheds
  }

  function Others(v: S.ServerState): seq<S.Timer>
  {
    if v.cfg.eviction.Some? then v.pendingSheds else v.pendingEvictions
  }

  ghost predicate Queued(queue: seq<Task>, start: Time)
  {
    exists i :: 0 <= i < |queue| && queue[i].start == start
  }

  ghost predicate DistinctTimers(timers: seq<S.Timer>)
  {
    forall i, j :: 0 <= i < j < |timers| ==> timers[i].start != timers[j].start
  }

  /** One timer for a task at most, and only for queued ones. */
  ghost predicate KeptOk(v: S.ServerState)
  {
    && Others(v) == [] && DistinctTimers(Kept(v))
    && forall i :: 0 <= i < |Kept(v)| ==> Queued(v.queue, Kept(v)[i].start)
  }

  /** Scheduled timers of server `s` for a task that started at `x`. */
  function For(s: nat, x: Time): S.TimerEvent -> int
  {
    (e: S.TimerEvent) => if e.server == s && e.start == x then 1 else 0
  }

  ghost predicate KeptAs(v: S.ServerState, e: S.TimerEvent)
  {
    e.kind == Waiting.KindOf(v.cfg) && S.Timer(e.start, e.at) in Kept(v)
  }

  /** Every scheduled timer of the server is one it keeps, and there is at most one for a start. */
  ghost predicate Backed(timers: seq<S.TimerEvent>, s: nat, v: S.ServerState)
  {
    && (forall x: Time :: Sum(timers, For(s, x)) <= 1)
    && (forall e :: e in timers && e.server == s ==> KeptAs(v, e))
  }

  ghost predicate TimersAt(g: Cluster, s: nat)
  {
    s < |g.servers| && KeptOk(g.servers[s]) && Backed(g.timers, s, g.servers[s])
  }

  ghost predicate TimersOk(g: Cluster)
  {
    forall s: nat :: s < |g.servers| ==> TimersAt(g, s)
  }

  /** No timer is scheduled that could take the task out. */
  ghost predicate NoTimer(g: Cluster, s: nat, start: Time)
  {
    forall e :: e in g.timers ==> e.server != s || e.start != start
  }

  /** A task that is not queued has no timer. */
  lemma NotQueuedNoTimer(g: Cluster, s: nat, start: Time)
    requires TimersAt(g, s) && !Queued(g.servers[s].queue, start)
    ensures NoTimer(g, s, start)
  {
    forall e | e in g.timers && e.server == s ensures e.start != start {
      assert KeptAs(g.servers[s], e);
      var i :| 0 <= i < |Kept(g.servers[s])| && Kept(g.servers[s])[i] == S.Timer(e.start, e.at);
    }
  }

  // Cancelling

  lemma {:induction false} FirstTaken(timers: seq<S.TimerEvent>, event: S.TimerEvent, f: S.TimerEvent -> int)
    ensures Sum(WithoutFirst(timers, event), f) == Sum(timers, f) - if event in timers then f(event) else 0
  {
    if timers != [] {
      assert timers == [timers[0]] + timers[1..];
      SumConcat([timers[0]], timers[1..], f);
      SumOne(timers[0], f);
      if timers[0] != event {
        FirstTaken(timers[1..], event, f);
        SumConcat([timers[0]], WithoutFirst(timers[1..], event), f);
      }
    }
  }

  lemma {:induction false} CancelledElsewhere(timers: seq<S.TimerEvent>, cancelled: seq<S.TimerEvent>, s: nat, x: Time)
    requires forall i :: 0 <= i < |cancelled| ==> cancelled[i].server != s
    ensures Sum(CancelAll(timers, cancelled), For(s, x)) == Sum(timers, For(s, x))
    decreases |cancelled|
  {
    if cancelled != [] {
      FirstTaken(timers, cancelled[0], For(s, x));
      CancelledElsewhere(WithoutFirst(timers, cancelled[0]), cancelled[1..], s, x);
    }
  }

  /** What happens at another server leaves the timers of server `s` alone. */
  lemma ElsewhereBacked(g: Cluster, g0: Cluster, t: nat, fx: S.ServerEffects, s: nat)
    requires TimersAt(g, s) && s != t && t < |g0.servers| && g0.servers == g.servers
    requires Waiting.CancelsOwn(fx, t) && forall i :: 0 <= i < |fx.out.scheduled| ==> fx.out.scheduled[i].server == t
    requires (forall e :: e in g0.timers ==> e in g.timers) && forall x :: Sum(g0.timers, For(s, x)) == Sum(g.timers, For(s, x))
    ensures TimersAt(AfterServer(g0, t, fx), s)
  {
    var h := AfterServer(g0, t, fx);
    forall x: Time ensures Sum(h.timers, For(s, x)) <= 1 {
      CancelledElsewhere(g0.timers, fx.out.cancelled, s, x);
      SumConcat(CancelAll(g0.timers, fx.out.cancelled), fx.out.scheduled, For(s, x));
      SumZero(fx.out.scheduled, For(s, x));
      assert Sum(g0.timers, For(s, x)) == Sum(g.timers, For(s, x));
    }
  }

  // Handlers

  /** A handler that leaves queue and timers as they are. */
  ghost predicate Untouched(v: S.ServerState, fx: S.ServerEffects)
  {
    && fx.server.cfg == v.cfg && fx.server.queue == v.queue
    && fx.server.pendingEvictions == v.pendingEvictions && fx.server.pendingSheds == v.pendingSheds
    && fx.out.cancelled == [] && fx.out.scheduled == []
  }

  lemma UntouchedBacked(g: Cluster, g0: Cluster, t: nat, fx: S.ServerEffects)
    requires TimersAt(g, t) && t < |g0.servers| && g0.servers == g.servers && g0.timers == g.timers && Untouched(g.servers[t], fx)
    ensures TimersAt(AfterServer(g0, t, fx), t)
  {
    assert CancelAll(g.timers, []) + [] == g.timers;
    var h := AfterServer(g0, t, fx);
    assert Kept(h.servers[t]) == Kept(g.servers[t]);
    forall e | e in h.timers && e.server == t ensures KeptAs(h.servers[t], e) {
      assert KeptAs(g.servers[t], e);
    }
  }

  /** What a full server does with the timers of a task that comes: nothing, or it schedules one and keeps it. */
  ghost predicate Coming(v: S.ServerState, task: Task, fx: S.ServerEffects)
  {
    && fx.server.cfg == v.cfg && fx.out.cancelled == [] && Others(fx.server) == Others(v)
    && (fx.server.queue == v.queue || fx.server.queue == v.queue + [task])
    && ((fx.out.scheduled == [] && Kept(fx.server) == Kept(v))
        || (exists at :: fx.server.queue == v.queue + [task]
              && fx.out.scheduled == [S.TimerEvent(Waiting.KindOf(v.cfg), at, v.cfg.index, task.start)]
              && Kept(fx.server) == Kept(v) + [S.Timer(task.start, at)]))
  }

  lemma EvictionComing(v: S.ServerState, task: Task, now: Time)
    requires v.cfg.eviction.Some? && v.cfg.shedding.None?
    ensures var queued := S.Begin(S.SampleLevel(v.(queue := v.queue + [task]), now));
            Coming(v, task, S.ApplyEviction(queued, task.start, now))
  {
    assert RemoveAt(v.queue + [task], |v.queue|) == v.queue;
  }

  lemma SheddingComing(v: S.ServerState, task: Task, now: Time)
    requires v.cfg.eviction.None?
    ensures var queued := S.Begin(S.SampleLevel(v.(queue := v.queue + [task]), now));
            Coming(v, task, S.ApplyShedding(queued, task.start, now))
  {
    assert RemoveAt(v.queue + [task], |v.queue|) == v.queue;
  }

  lemma InputComing(v: S.ServerState, task: Task, now: Time)
    requires v.Valid() && v.cfg.mode == S.Push && v.inFlight >= v.cfg.maxConcurrency
    ensures Coming(v, task, S.Input(v, task, now))
  {
    if v.cfg.eviction.Some? {
      EvictionComing(v, task, now);
    } else {
      SheddingComing(v, task, now);
    }
  }

  lemma StillQueued(v: S.ServerState, w: S.ServerState, task: Task)
    requires w.queue == v.queue || w.queue == v.queue + [task]
    ensures forall x :: Queued(v.queue, x) ==> Queued(w.queue, x)
  {
    forall x | Queued(v.queue, x) ensures Queued(w.queue, x) {
      var i :| 0 <= i < |v.queue| && v.queue[i].start == x;
      assert w.queue[i].start == x;
    }
  }

  lemma ComingKept(v: S.ServerState, task: Task, fx: S.ServerEffects)
    requires KeptOk(v) && Coming(v, task, fx) && Waiting.DistinctStarts(fx.server.queue)
    ensures KeptOk(fx.server)
    ensures fx.out.scheduled != [] ==> !Queued(v.queue, task.start)
  {
    var w := fx.server;
    StillQueued(v, w, task);
    if fx.out.scheduled != [] {
      assert w.queue[|v.queue|] == task;
      forall i | 0 <= i < |v.queue| ensures v.queue[i].start != task.start {
        assert w.queue[i] == v.queue[i];
      }
      assert Queued(w.queue, task.start);
    }
  }

  lemma TaskBackedHere(g: Cluster, i: nat)
    requires WellFormed(g) && i < |g.tasks| && g.tasks[i].server < |g.servers| && TimersAt(g, g.tasks[i].server)
    requires var v := g.servers[g.tasks[i].server]; v.cfg.mode == S.Push && v.inFlight >= v.cfg.maxConcurrency
    requires Waiting.DistinctStarts(TaskDelivered(g, i).servers[g.tasks[i].server].queue)
    ensures TimersAt(TaskDelivered(g, i), g.tasks[i].server)
  {
    var m := g.tasks[i];
    var v, s := g.servers[m.server], m.server;
    assert ServerAt(g.topo, s, v) && ServerWired(g.topo, s);
    var fx := S.Input(v, m.task, g.now);
    InputComing(v, m.task, g.now);
    ComingKept(v, m.task, fx);
    ComingBacked(g.timers, s, v, m.task, fx);
  }

  lemma ComingBacked(timers: seq<S.TimerEvent>, s: nat, v: S.ServerState, task: Task, fx: S.ServerEffects)
    requires KeptOk(v) && Backed(timers, s, v) && Coming(v, task, fx) && v.cfg.index == s
    requires fx.out.scheduled != [] ==> !Queued(v.queue, task.start)
    ensures Backed(CancelAll(timers, fx.out.cancelled) + fx.out.scheduled, s, fx.server)
  {
    var w, after := fx.server, timers + fx.out.scheduled;
    assert CancelAll(timers, []) == timers;
    forall x: Time ensures Sum(after, For(s, x)) <= 1 {
      SumConcat(timers, fx.out.scheduled, For(s, x));
      if fx.out.scheduled != [] {
        SumOne(fx.out.scheduled[0], For(s, x));
        assert fx.out.scheduled == [fx.out.scheduled[0]];
        if x == task.start {
          NoneFor(timers, s, v, x);
        }
      }
    }
    forall e | e in after && e.server == s ensures KeptAs(w, e) {
      if e in timers {
        assert KeptAs(v, e);
      }
    }
  }

  lemma NoneFor(timers: seq<S.TimerEvent>, s: nat, v: S.ServerState, x: Time)
    requires KeptOk(v) && Backed(timers, s, v) && !Queued(v.queue, x)
    ensures Sum(timers, For(s, x)) == 0
  {
    forall i | 0 <= i < |timers| ensures For(s, x)(timers[i]) == 0 {
      if timers[i].server == s {
        assert KeptAs(v, timers[i]);
        var k :| 0 <= k < |Kept(v)| && Kept(v)[k] == S.Timer(timers[i].start, timers[i].at);
      }
    }
    SumZero(timers, For(s, x));
  }

  /** When a task starts, its timer goes, and no other. */
  ghost predicate HeadLeaves(v: S.ServerState, fx: S.ServerEffects)
    requires v.queue != []
  {
    var x, k := v.queue[0].start, S.TimerPosition(Kept(v), v.queue[0].start);
    && fx.server.cfg == v.cfg && fx.server.queue == v.queue[1..] && fx.out.scheduled == [] && Others(fx.server) == []
    && (if k < |Kept(v)| then
          && Kept(fx.server) == RemoveAt(Kept(v), k)
          && fx.out.cancelled == [S.TimerEvent(Waiting.KindOf(v.cfg), Kept(v)[k].at, v.cfg.index, x)]
        else Kept(fx.server) == Kept(v) && fx.out.cancelled == [])
  }

  lemma BeginCancels(fx: S.ServerEffects, task: Task, now: Time)
    requires Others(fx.server) == [] && fx.out.cancelled == []
    ensures var r := S.BeginService(fx, task, now);
            var k := S.TimerPosition(Kept(fx.server), task.start);
            && r.server.cfg == fx.server.cfg && r.server.queue == fx.server.queue && Others(r.server) == []
            && r.out.scheduled == fx.out.scheduled
            && (if k < |Kept(fx.server)| then
                  && Kept(r.server) == RemoveAt(Kept(fx.server), k)
                  && r.out.cancelled == [S.TimerEvent(Waiting.KindOf(fx.server.cfg), Kept(fx.server)[k].at, fx.server.cfg.index, task.start)]
                else Kept(r.server) == Kept(fx.server) && r.out.cancelled == [])
  {
  }

  lemma CompleteLeaves(v: S.ServerState, task: Task, now: Time)
    requires v.cfg.mode == S.Push && 0 < v.inFlight == v.cfg.maxConcurrency && v.queue != [] && Others(v) == []
    ensures HeadLeaves(v, S.Complete(v, task, now))
  {
    var ended := S.Ended(v, task, now);
    var taken := S.TakeHead(ended, now);
    var next := S.BeginService(taken, v.queue[0], now);
    BeginCancels(taken, v.queue[0], now);
    assert next.server.inFlight == v.cfg.maxConcurrency;
    assert S.DrainQueue(ended, now) == S.DrainQueue(next, now) == next;
    assert RemoveAt(v.queue, 0) == v.queue[1..];
  }

  lemma HeadLeavesKept(v: S.ServerState, fx: S.ServerEffects)
    requires v.queue != [] && KeptOk(v) && HeadLeaves(v, fx)
    ensures KeptOk(fx.server)
    ensures forall t :: t in Kept(v) && t.start != v.queue[0].start ==> t in Kept(fx.server)
  {
    var x, k := v.queue[0].start, S.TimerPosition(Kept(v), v.queue[0].start);
    forall i | 0 <= i < |Kept(fx.server)| ensures Queued(v.queue[1..], Kept(fx.server)[i].start) {
      var was := if k < |Kept(v)| && i >= k then i + 1 else i;
      assert Kept(fx.server)[i] == Kept(v)[was] && Kept(v)[was].start != x;
      var j :| 0 <= j < |v.queue| && v.queue[j].start == Kept(v)[was].start;
      assert v.queue[1..][j - 1].start == Kept(v)[was].start;
    }
    forall t | t in Kept(v) && t.start != x ensures t in Kept(fx.server) {
      var i :| 0 <= i < |Kept(v)| && Kept(v)[i] == t;
      if k < |Kept(v)| {
        assert i != k;
        assert Kept(fx.server)[if i < k then i else i - 1] == t;
      }
    }
  }

  lemma HeadLeavesBacked(timers: seq<S.TimerEvent>, s: nat, v: S.ServerState, fx: S.ServerEffects)
    requires v.queue != [] && KeptOk(v) && Backed(timers, s, v) && HeadLeaves(v, fx) && v.cfg.index == s
    ensures Backed(CancelAll(timers, fx.out.cancelled) + fx.out.scheduled, s, fx.server)
  {
    var x, k := v.queue[0].start, S.TimerPosition(Kept(v), v.queue[0].start);
    var rest := CancelAll(timers, fx.out.cancelled);
    assert rest + [] == rest;
    HeadLeavesKept(v, fx);
    if k < |Kept(v)| {
      var event := fx.out.cancelled[0];
      assert rest == CancelAll(WithoutFirst(timers, event), []) == WithoutFirst(timers, event);
      forall y: Time ensures Sum(rest, For(s, y)) <= 1 {
        FirstTaken(timers, event, For(s, y));
      }
    }
    forall e | e in rest && e.server == s ensures KeptAs(fx.server, e) {
      assert e in timers && KeptAs(v, e);
      if e.start == x {
        OnlyTimer(timers, s, v, e, k);
        assert false;
      }
    }
  }

  /** The timer of the starting task is the one that is cancelled. */
  lemma OnlyTimer(timers: seq<S.TimerEvent>, s: nat, v: S.ServerState, e: S.TimerEvent, k: nat)
    requires KeptOk(v) && Backed(timers, s, v) && v.cfg.index == s && KeptAs(v, e) && e.server == s
    requires k == S.TimerPosition(Kept(v), e.start)
    ensures k < |Kept(v)|
    ensures e !in WithoutFirst(timers, S.TimerEvent(Waiting.KindOf(v.cfg), Kept(v)[k].at, s, e.start))
  {
    var i :| 0 <= i < |Kept(v)| && Kept(v)[i] == S.Timer(e.start, e.at);
    assert k == i;
    FirstTaken(timers, e, For(s, e.start));
    var rest := WithoutFirst(timers, e);
    if e in timers {
      assert Sum(timers, For(s, e.start)) <= 1;
      if e in rest {
        var j :| 0 <= j < |rest| && rest[j] == e;
        SumAtLeast(rest, j, For(s, e.start));
      }
    }
  }

  lemma RemovedQueued(queue: seq<Task>, j: nat, x: Time)
    requires Queued(queue, x) && j < |queue| && queue[j].start != x
    ensures Queued(RemoveAt(queue, j), x)
  {
    var q :| 0 <= q < |queue| && queue[q].start == x;
    assert RemoveAt(queue, j)[if q < j then q else q - 1] == queue[q];
  }

  lemma FiredLists(v: S.ServerState, e: S.TimerEvent)
    requires e.kind == Waiting.KindOf(v.cfg)
    ensures var fx, j := TimerEffects(v, e), S.TaskPosition(v.queue, e.start);
            && Kept(fx.server) == S.WithoutTimers(Kept(v), e.start) && Others(fx.server) == Others(v)
            && fx.server.cfg == v.cfg && fx.out.cancelled == [] && fx.out.scheduled == []
            && fx.server.queue == if j < |v.queue| then RemoveAt(v.queue, j) else v.queue
  {
  }

  /** When a timer fires its task leaves the queue, and all of the task's timers are forgotten. */
  lemma FiredKept(v: S.ServerState, e: S.TimerEvent)
    requires KeptOk(v) && e.kind == Waiting.KindOf(v.cfg)
    ensures var fx := TimerEffects(v, e);
            && KeptOk(fx.server) && fx.server.cfg == v.cfg && fx.out.cancelled == [] && fx.out.scheduled == []
            && forall t :: t in Kept(v) && t.start != e.start ==> t in Kept(fx.server)
  {
    var w, j := TimerEffects(v, e).server, S.TaskPosition(v.queue, e.start);
    FiredLists(v, e);
    WithoutDistinct(Kept(v), e.start);
    forall i | 0 <= i < |Kept(w)| ensures Queued(w.queue, Kept(w)[i].start) {
      var k :| 0 <= k < |Kept(v)| && Kept(v)[k] == Kept(w)[i];
      assert Queued(v.queue, Kept(v)[k].start);
      if j < |v.queue| {
        RemovedQueued(v.queue, j, Kept(v)[k].start);
      }
    }
  }

  lemma {:induction false} WithoutDistinct(timers: seq<S.Timer>, start: Time)
    requires DistinctTimers(timers)
    ensures DistinctTimers(S.WithoutTimers(timers, start))
  {
    if timers != [] {
      WithoutDistinct(timers[1..], start);
      forall i | 0 <= i < |S.WithoutTimers(timers[1..], start)|
        ensures S.WithoutTimers(timers[1..], start)[i].start != timers[0].start
      {
        var k :| 0 <= k < |timers[1..]| && timers[1..][k] == S.WithoutTimers(timers[1..], start)[i];
        assert timers[k + 1].start != timers[0].start;
      }
    }
  }

  lemma FiredBacked(g: Cluster, i: nat)
    requires WellFormed(g) && i < |g.timers| && g.timers[i].server < |g.servers| && TimersAt(g, g.timers[i].server)
    ensures TimersAt(TimerFired(g, i), g.timers[i].server)
  {
    var e := g.timers[i];
    var s, v := e.server, g.servers[e.server];
    assert KeptAs(v, e);
    FiredKept(v, e);
    var rest, h := RemoveAt(g.timers, i), TimerFired(g, i);
    assert h.timers == CancelAll(rest, []) + [] == rest;
    forall x: Time ensures Sum(rest, For(s, x)) <= 1 {
      SumRemove(g.timers, i, For(s, x));
    }
    forall f | f in rest && f.server == s ensures KeptAs(h.servers[s], f) {
      assert f in g.timers && KeptAs(v, f);
      NoSecond(g.timers, i, f);
    }
  }

  lemma NoSecond(timers: seq<S.TimerEvent>, i: nat, f: S.TimerEvent)
    requires i < |timers| && Sum(timers, For(timers[i].server, timers[i].start)) <= 1
    requires f in RemoveAt(timers, i) && f.server == timers[i].server
    ensures f.start != timers[i].start
  {
    var rest, w := RemoveAt(timers, i), For(timers[i].server, timers[i].start);
    var j :| 0 <= j < |rest| && rest[j] == f;
    SumRemove(timers, i, w);
    SumAtLeast(rest, j, w);
  }

  // Steps

  ghost predicate OwnTimers(fx: S.ServerEffects, s: nat)
  {
    Waiting.CancelsOwn(fx, s) && forall i :: 0 <= i < |fx.out.scheduled| ==> fx.out.scheduled[i].server == s
  }

  lemma InputOwn(v: S.ServerState, task: Task, now: Time)
    requires v.Valid()
    ensures OwnTimers(S.Input(v, task, now), v.cfg.index)
  {
    Waiting.InputCancelsOwn(v, task, now);
    if v.cfg.mode == S.Push && v.inFlight >= v.cfg.maxConcurrency {
      InputComing(v, task, now);
    }
  }

  lemma {:induction false} DrainSchedules(fx: S.ServerEffects, now: Time)
    ensures S.DrainQueue(fx, now).out.scheduled == fx.out.scheduled
    decreases |fx.server.queue|
  {
    var v := fx.server;
    if v.inFlight < v.cfg.maxConcurrency && v.queue != [] {
      DrainSchedules(S.BeginService(S.TakeHead(fx, now), v.queue[0], now), now);
    }
  }

  lemma CompleteOwn(v: S.ServerState, task: Task, now: Time)
    requires v.inFlight > 0
    ensures OwnTimers(S.Complete(v, task, now), v.cfg.index)
  {
    Waiting.CompleteCancelsOwn(v, task, now);
    if v.cfg.mode == S.Push {
      DrainSchedules(S.Ended(v, task, now), now);
    }
  }

  /** A server without a queue keeps no timers, and starting a task cancels none. */
  lemma IdleBegins(v: S.ServerState, task: Task, now: Time)
    requires v.Valid() && KeptOk(v) && v.queue == [] && (v.cfg.mode == S.Push ==> v.inFlight < v.cfg.maxConcurrency)
    ensures Untouched(v, S.Input(v, task, now))
  {
    assert |Kept(v)| > 0 ==> Queued(v.queue, Kept(v)[0].start);
    assert forall x :: !Queued(v.queue, x);
  }

  lemma TaskBacked(g: Cluster, i: nat, s: nat)
    requires WellFormed(g) && Slots.SlotsOk(g) && TimersOk(g) && i < |g.tasks| && s < |g.servers|
    requires Waiting.DistinctStarts(TaskDelivered(g, i).servers[s].queue)
    ensures TimersAt(TaskDelivered(g, i), s)
  {
    var m := g.tasks[i];
    assert TaskAt(g.topo, m.server, m.task) && TimersAt(g, s) && TimersAt(g, m.server);
    var v := g.servers[m.server];
    assert ServerAt(g.topo, m.server, v) && ServerWired(g.topo, m.server) && Slots.SlotsAt(g, m.server);
    var g0, fx := g.(tasks := RemoveAt(g.tasks, i)), S.Input(v, m.task, g.now);
    if m.server != s {
      InputOwn(v, m.task, g.now);
      ElsewhereBacked(g, g0, m.server, fx, s);
    } else if v.cfg.mode == S.Push && v.inFlight >= v.cfg.maxConcurrency {
      TaskBackedHere(g, i);
    } else {
      IdleBegins(v, m.task, g.now);
      UntouchedBacked(g, g0, s, fx);
    }
  }

  lemma IdleCompletes(v: S.ServerState, task: Task, now: Time)
    requires v.inFlight > 0 && v.queue == []
    ensures Untouched(v, S.Complete(v, task, now))
  {
  }

  lemma CompletionBacked(g: Cluster, i: nat, s: nat)
    requires WellFormed(g) && Slots.SlotsOk(g) && TimersOk(g) && i < |g.completions| && s < |g.servers|
    requires g.servers[g.completions[i].server].inFlight > 0
    ensures TimersAt(CompletionFired(g, i), s)
  {
    var c := g.completions[i];
    assert CompletionAt(g.topo, c) && TimersAt(g, s) && TimersAt(g, c.server);
    var v := g.servers[c.server];
    assert ServerAt(g.topo, c.server, v) && ServerWired(g.topo, c.server) && Slots.SlotsAt(g, c.server);
    var g0, fx := g.(now := c.at, completions := RemoveAt(g.completions, i)), S.Complete(v, c.task, c.at);
    if c.server != s {
      CompleteOwn(v, c.task, c.at);
      ElsewhereBacked(g, g0, c.server, fx, s);
    } else if v.queue == [] {
      IdleCompletes(v, c.task, c.at);
      UntouchedBacked(g, g0, s, fx);
    } else {
      CompleteLeaves(v, c.task, c.at);
      HeadLeavesKept(v, fx);
      HeadLeavesBacked(g.timers, s, v, fx);
    }
  }

  lemma TimerBacked(g: Cluster, i: nat, s: nat)
    requires WellFormed(g) && TimersOk(g) && i < |g.timers| && s < |g.servers|
    ensures TimersAt(TimerFired(g, i), s)
  {
    var e := g.timers[i];
    assert TimerAt(g.topo, e) && TimersAt(g, s) && TimersAt(g, e.server);
    if e.server == s {
      FiredBacked(g, i);
    } else {
      var g0 := g.(now := e.at, timers := RemoveAt(g.timers, i));
      forall x: Time ensures Sum(g0.timers, For(s, x)) == Sum(g.timers, For(s, x)) {
        SumRemove(g.timers, i, For(s, x));
      }
      ElsewhereBacked(g, g0, e.server, TimerEffects(g.servers[e.server], e), s);
    }
  }

  lemma QuietBacked(g: Cluster, g0: Cluster, t: nat, fx: S.ServerEffects, s: nat)
    requires TimersAt(g, s) && t < |g0.servers| && g0.servers == g.servers && g0.timers == g.timers && Untouched(g.servers[t], fx)
    ensures TimersAt(AfterServer(g0, t, fx), s)
  {
    if s == t {
      UntouchedBacked(g, g0, t, fx);
    } else {
      assert CancelAll(g.timers, []) + [] == g.timers;
    }
  }

  lemma NextTimersAt(g: Cluster, step: Step, s: nat)
    requires WellFormed(g) && Slots.SlotsOk(g) && TimersOk(g) && Enabled(g, step) && s < |g.servers|
    requires |Next(g, step).servers| == |g.servers| && Waiting.DistinctStarts(Next(g, step).servers[s].queue)
    ensures TimersAt(Next(g, step), s)
  {
    assert TimersAt(g, s);
    match step
    case DeliverTask(i) => TaskBacked(g, i, s);
    case FireCompletion(i) => CompletionBacked(g, i, s);
    case FireTimer(i) => TimerBacked(g, i, s);
    case DeliverIntent(i) =>
      var m := g.intents[i];
      assert IntentAt(g.topo, m.server, m.intent);
      QuietBacked(g, g.(intents := RemoveAt(g.intents, i)), m.server, S.ReceiveIntent(g.servers[m.server], m.intent), s);
    case FireInitialPull(i) =>
      var q := g.initialPulls[i];
      QuietBacked(g, g.(now := q.at, initialPulls := RemoveAt(g.initialPulls, i)), q.server, S.RequestPull(g.servers[q.server]), s);
    case _ =>
  }

  /** Timers stay with their tasks. */
  lemma NextTimersOk(g: Cluster, step: Step)
    requires WellFormed(g) && Slots.SlotsOk(g) && TimersOk(g) && Enabled(g, step) && Waiting.Clear(Next(g, step))
    ensures TimersOk(Next(g, step))
  {
    Wiring.NextKeepsWellFormed(g, step);
    SameTopology(g, step);
    forall s: nat | s < |Next(g, step).servers| ensures TimersAt(Next(g, step), s) {
      NextTimersAt(g, step, s);
    }
  }

  lemma SameTopology(g: Cluster, step: Step)
    requires WellFormed(g) && Enabled(g, step)
    ensures Next(g, step).topo == g.topo
  {
  }
}
