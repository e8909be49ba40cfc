/** The waiting bound and the promise of the delay estimate over whole runs, from assumptions on the start of a run alone:
    requests have different start times, and services that could be confused are equally long or cannot meet. */
module Promises {
  import opened Domain
  import opened Sums
  import opened Clusters
  import opened Waiting
  import opened Deadlines
  import B = Balancers
  import S = Servers
  import Flows
  import Accounting
  import Services
  import Slots
  import Jobs
  import Runs
  import Timers

  // From the arrivals to every state

  ghost predicate DistinctArrivals(arrivals: seq<Arrival>)
  {
    forall i, j :: 0 <= i < j < |arrivals| ==> arrivals[i].task.start != arrivals[j].task.start
  }

  ghost predicate EqualDurations(arrivals: seq<Arrival>, d: nat)
  {
    forall i :: 0 <= i < |arrivals| ==> arrivals[i].task.duration == d
  }

  /** Requests have different starts; and every push server has one slot, or all requests are equally long. */
  ghost predicate ClearStart(g: Cluster)
  {
    DistinctArrivals(g.arrivals) && (Services.OneSlot(g.topo) || exists d :: EqualDurations(g.arrivals, d))
  }

  function StartIs(x: Time): Jobs.Weight { (_: nat, start: Time, _: nat) => if start == x then 1 else 0 }
  function Otherwise(d: nat): Jobs.Weight { (_: nat, _: Time, duration: nat) => if duration == d then 0 else 1 }

  lemma {:induction false} OneArrival(arrivals: seq<Arrival>, x: Time)
    requires DistinctArrivals(arrivals)
    ensures 0 <= Sum(arrivals, Jobs.OfArrival(StartIs(x))) <= 1
    ensures Sum(arrivals, Jobs.OfArrival(StartIs(x))) == 1 ==> exists i :: 0 <= i < |arrivals| && arrivals[i].task.start == x
  {
    if arrivals != [] {
      OneArrival(arrivals[..|arrivals| - 1], x);
    }
  }

  ghost predicate Natural(w: Jobs.Weight)
  {
    forall b, x, d :: w(b, x, d) >= 0
  }

  lemma NaturalMeasures(f: Flows.Measure)
    requires forall id :: f(id) >= 0
    ensures NonNegative(Flows.OfTask(f)) && NonNegative(Flows.OfMsg(f)) && NonNegative(Flows.OfShed(f))
    ensures NonNegative(Flows.OfCompletion(f)) && NonNegative(Accounting.QueuedAt(f))
  {
    forall t: Task ensures Flows.OfTask(f)(t) >= 0 { assert f(Flows.IdentityOf(t)) >= 0; }
    forall m: TaskMsg ensures Flows.OfMsg(f)(m) >= 0 { assert f(Flows.IdentityOf(m.task)) >= 0; }
    forall m: ShedMsg ensures Flows.OfShed(f)(m) >= 0 { assert f(Flows.IdentityOf(m.task)) >= 0; }
    forall c: S.Completion ensures Flows.OfCompletion(f)(c) >= 0 { assert f(Flows.IdentityOf(c.task)) >= 0; }
    forall v: S.ServerState ensures Accounting.QueuedAt(f)(v) >= 0 { SumNonNegative(v.queue, Flows.OfTask(f)); }
  }

  lemma NaturalJobs(w: Jobs.Weight)
    requires Natural(w)
    ensures forall id :: Jobs.AsOwned(w)(id) >= 0
    ensures NonNegative(Jobs.OfArrival(w)) && NonNegative(Jobs.QueuedJobs(w))
  {
    forall id: Flows.Identity ensures Jobs.AsOwned(w)(id) >= 0 { assert w(id.lbId, id.start, id.duration) >= 0; }
    forall a: Arrival ensures Jobs.OfArrival(w)(a) >= 0 { assert w(a.lb, a.task.start, a.task.duration) >= 0; }
    forall l: B.Balancer ensures Jobs.QueuedJobs(w)(l) >= 0 {
      var f := Jobs.MeasureAt(w, l);
      forall id: Flows.Identity ensures f(id) >= 0 {
        assert w(id.lbId, id.start, id.duration) >= 0 && w(l.cfg.lbId, id.start, id.duration) >= 0;
      }
      NaturalMeasures(f);
      SumNonNegative(l.queue, Flows.OfTask(f));
    }
  }

  lemma NaturalSums(g: Cluster, w: Jobs.Weight)
    requires Natural(w)
    ensures var f := Jobs.AsOwned(w);
            && Sum(g.arrivals, Jobs.OfArrival(w)) >= 0 && Sum(g.balancers, Jobs.QueuedJobs(w)) >= 0
            && Sum(g.tasks, Flows.OfMsg(f)) >= 0 && Sum(g.servers, Accounting.QueuedAt(f)) >= 0
            && Sum(g.completions, Flows.OfCompletion(f)) >= 0 && Sum(g.evicted, Flows.OfTask(f)) >= 0
            && Sum(g.shed, Flows.OfShed(f)) >= 0 && Sum(g.done, Flows.OfTask(f)) >= 0
    ensures NonNegative(Accounting.QueuedAt(Jobs.AsOwned(w))) && NonNegative(Flows.OfTask(Jobs.AsOwned(w)))
    ensures NonNegative(Flows.OfCompletion(Jobs.AsOwned(w)))
  {
    var f := Jobs.AsOwned(w);
    NaturalJobs(w);
    NaturalMeasures(f);
    SumNonNegative(g.arrivals, Jobs.OfArrival(w));
    SumNonNegative(g.balancers, Jobs.QueuedJobs(w));
    SumNonNegative(g.tasks, Flows.OfMsg(f));
    SumNonNegative(g.servers, Accounting.QueuedAt(f));
    SumNonNegative(g.completions, Flows.OfCompletion(f));
    SumNonNegative(g.evicted, Flows.OfTask(f));
    SumNonNegative(g.shed, Flows.OfShed(f));
    SumNonNegative(g.done, Flows.OfTask(f));
  }

  /** Two tasks of one start cannot be in one queue if there is only one job with that start. */
  lemma OneInQueue(g: Cluster, s: nat, i: nat, j: nat)
    requires s < |g.servers| && i < j < |g.servers[s].queue|
    requires Jobs.Total(g, StartIs(g.servers[s].queue[i].start)) <= 1
    ensures g.servers[s].queue[i].start != g.servers[s].queue[j].start
  {
    var queue, w := g.servers[s].queue, StartIs(g.servers[s].queue[i].start);
    var f := Jobs.AsOwned(w);
    NaturalSums(g, w);
    SumAtLeast(g.servers, s, Accounting.QueuedAt(f));
    assert Flows.OfTask(f)(queue[i]) == f(Flows.IdentityOf(queue[i])) == w(queue[i].lbId, queue[i].start, queue[i].duration) == 1;
    assert Flows.OfTask(f)(queue[j]) == f(Flows.IdentityOf(queue[j])) == w(queue[j].lbId, queue[j].start, queue[j].duration);
    SumRemove(queue, j, Flows.OfTask(f));
    SumAtLeast(RemoveAt(queue, j), i, Flows.OfTask(f));
  }

  lemma DistinctInState(g: Cluster)
    requires forall x: Time :: Jobs.Total(g, StartIs(x)) <= 1
    ensures forall s :: 0 <= s < |g.servers| ==> DistinctStarts(g.servers[s].queue)
  {
    forall s, i, j | 0 <= s < |g.servers| && 0 <= i < j < |g.servers[s].queue|
      ensures g.servers[s].queue[i].start != g.servers[s].queue[j].start
    {
      OneInQueue(g, s, i, j);
    }
  }

  /** If no job has another duration, services are equally long. */
  lemma EqualUnambiguous(g: Cluster, d: nat)
    requires Jobs.Total(g, Otherwise(d)) == 0
    ensures Services.Unambiguous(g)
  {
    var w := Otherwise(d);
    var f := Jobs.AsOwned(w);
    NaturalSums(g, w);
    forall i | 0 <= i < |g.completions| ensures g.completions[i].task.duration == d {
      var t := g.completions[i].task;
      SumAtLeast(g.completions, i, Flows.OfCompletion(f));
      assert Flows.OfCompletion(f)(g.completions[i]) == f(Flows.IdentityOf(t)) == w(t.lbId, t.start, t.duration);
    }
  }

  lemma RunPart(states: seq<Cluster>, steps: seq<Step>, k: nat)
    requires Run(states, steps) && k <= |steps|
    ensures Run(states[..k + 1], steps[..k]) && Runs.Final(states[..k + 1]) == states[k] && states[..k + 1][0] == states[0]
  {
    var part := states[..k + 1];
    forall i | 0 <= i < k ensures StepTo(part[i], steps[..k][i], part[i + 1]) {
      assert StepTo(states[i], steps[i], states[i + 1]);
    }
  }

  lemma JobsAt(states: seq<Cluster>, steps: seq<Step>, k: nat, w: Jobs.Weight)
    requires Run(states, steps) && k <= |steps|
    ensures Jobs.Total(states[k], w) == Sum(states[0].arrivals, Jobs.OfArrival(w))
  {
    RunPart(states, steps, k);
    Runs.EveryRunConservesJobs(states[..k + 1], steps[..k], w);
  }

  lemma InvariantAt(states: seq<Cluster>, steps: seq<Step>, k: nat)
    requires Run(states, steps) && k <= |steps|
    ensures Runs.Invariant(states[k], states[0].topo, states[0].now)
  {
    RunPart(states, steps, k);
    Runs.EveryRunIsSafe(states[..k + 1], steps[..k]);
  }

  lemma UnambiguousAt(states: seq<Cluster>, steps: seq<Step>, k: nat)
    requires Run(states, steps) && k <= |steps|
    requires Services.OneSlot(states[0].topo) || exists d :: EqualDurations(states[0].arrivals, d)
    ensures Services.Unambiguous(states[k])
  {
    InvariantAt(states, steps, k);
    if Services.OneSlot(states[0].topo) {
      Services.OneSlotUnambiguous(states[k]);
    } else {
      var d :| EqualDurations(states[0].arrivals, d);
      JobsAt(states, steps, k, Otherwise(d));
      SumZero(states[0].arrivals, Jobs.OfArrival(Otherwise(d)));
      EqualUnambiguous(states[k], d);
    }
  }

  /** What the start of a run assures of every state. */
  lemma ClearThroughout(states: seq<Cluster>, steps: seq<Step>)
    requires Run(states, steps) && ClearStart(states[0])
    ensures ClearRun(states, steps)
  {
    forall k | 0 <= k < |states| ensures Clear(states[k]) {
      UnambiguousAt(states, steps, k);
      forall x: Time ensures Jobs.Total(states[k], StartIs(x)) <= 1 {
        JobsAt(states, steps, k, StartIs(x));
        OneArrival(states[0].arrivals, x);
      }
      DistinctInState(states[k]);
    }
  }

  /** The waiting bound. If requests have different starts, and every push server has one slot or all requests are equally
      long, then at any point of any run no task has been in a server's queue for longer than the threshold, and every
      task that has left one, to be served, evicted or shed, left it within the threshold. */
  lemma WaitingBound(states: seq<Cluster>, steps: seq<Step>)
    requires Run(states, steps) && ClearStart(states[0])
    ensures var g := Runs.Final(states);
            && Departed(g)
            && (forall s, i :: 0 <= s < |g.servers| && 0 <= i < |g.servers[s].queue| ==>
                  InTime(g.topo, g.servers[s].queue[i], g.now))
  {
    ClearThroughout(states, steps);
    ClearRunBound(states, steps);
  }

  // The promise of the estimate

  ghost predicate GoodState(g: Cluster)
  {
    Ready(g) && Timers.TimersOk(g)
  }

  lemma FirstGood(g: Cluster)
    requires Initial(g) && Clear(g)
    ensures GoodState(g)
  {
    InitialReady(g);
    forall s: nat | s < |g.servers| ensures Timers.TimersAt(g, s) {
    }
  }

  lemma NextGood(states: seq<Cluster>, steps: seq<Step>, k: nat)
    requires ClearRun(states, steps) && k < |steps| && GoodState(states[k])
    ensures StepTo(states[k], steps[k], states[k + 1]) && Clear(states[k + 1]) && GoodState(states[k + 1])
  {
    assert StepTo(states[k], steps[k], states[k + 1]) && Clear(states[k + 1]);
    NextReady(states[k], steps[k]);
    Timers.NextTimersOk(states[k], steps[k]);
  }

  ghost predicate StaysGood(states: seq<Cluster>)
  {
    states != [] && GoodState(states[0]) && forall i :: 0 <= i < |states| - 1 && GoodState(states[i]) ==> GoodState(states[i + 1])
  }

  lemma {:induction false} GoodAll(states: seq<Cluster>, k: nat)
    requires StaysGood(states) && k < |states|
    ensures GoodState(states[k])
  {
    if k > 0 {
      GoodAll(states, k - 1);
    }
  }

  lemma RunStaysGood(states: seq<Cluster>, steps: seq<Step>)
    requires ClearRun(states, steps)
    ensures StaysGood(states)
  {
    FirstGood(states[0]);
    forall i | 0 <= i < |states| - 1 && GoodState(states[i]) ensures GoodState(states[i + 1]) {
      NextGood(states, steps, i);
    }
  }

  lemma GoodAt(states: seq<Cluster>, steps: seq<Step>, k: nat)
    requires ClearRun(states, steps) && k <= |steps|
    ensures GoodState(states[k])
  {
    RunStaysGood(states, steps);
    GoodAll(states, k);
  }

  /** The service of `t`: the same task with the times of its service filled in. */
  ghost predicate ServiceOf(x: Task, t: Task)
  {
    x == t.(serviceStartedAt := x.serviceStartedAt, finish := x.finish, servedByExpress := x.servedByExpress)
  }

  ghost predicate Serving(g: Cluster, s: nat, t: Task, d: nat)
  {
    exists c :: c in g.completions && c.server == s && ServiceOf(c.task, t) && c.at <= Came(t) + d
  }

  ghost predicate Served(g: Cluster, t: Task, d: nat)
  {
    exists x :: x in g.done && ServiceOf(x, t) && x.finish <= Came(t) + d
  }

  /** The task waits on track and nothing can take it out, or it is being served or has been, in time. */
  ghost predicate Promised(g: Cluster, s: nat, t: Task, d: nat)
  {
    (Tracked(g, s, t, d) && Timers.NoTimer(g, s, t.start)) || Serving(g, s, t, d) || Served(g, t, d)
  }

  /** A completion stays scheduled until it fires, and then its task is done at that time. */
  lemma ServingGoesOn(g: Cluster, step: Step, s: nat, t: Task, d: nat)
    requires WellFormed(g) && Enabled(g, step) && Serving(g, s, t, d)
    ensures Serving(Next(g, step), s, t, d) || Served(Next(g, step), t, d)
  {
    var c :| c in g.completions && c.server == s && ServiceOf(c.task, t) && c.at <= Came(t) + d;
    if step.FireCompletion? && g.completions[step.i] == c {
      DoneAt(g, step.i, t);
      var x := c.task.(finish := c.at, servedByExpress := g.servers[s].cfg.isExpress);
      assert x in Next(g, step).done && ServiceOf(x, t);
    } else {
      StaysScheduled(g, step, c);
    }
  }

  lemma DoneAt(g: Cluster, i: nat, t: Task)
    requires WellFormed(g) && i < |g.completions| && g.servers[g.completions[i].server].inFlight > 0
    ensures var c := g.completions[i];
            c.task.(finish := c.at, servedByExpress := g.servers[c.server].cfg.isExpress) in CompletionFired(g, i).done
  {
    var c := g.completions[i];
    var v := g.servers[c.server];
    if v.cfg.mode == S.Push {
      Jobs.DrainFinishes(S.Ended(v, c.task, c.at), c.at);
    }
    var x := c.task.(finish := c.at, servedByExpress := v.cfg.isExpress);
    assert S.Complete(v, c.task, c.at).out.finished == [x];
    assert [x][0] in [x];
  }

  lemma StaysScheduled(g: Cluster, step: Step, c: S.Completion)
    requires WellFormed(g) && Enabled(g, step) && c in g.completions
    requires !(step.FireCompletion? && g.completions[step.i] == c)
    ensures c in Next(g, step).completions
  {
    if step.FireCompletion? {
      var k :| 0 <= k < |g.completions| && g.completions[k] == c;
      assert RemoveAt(g.completions, step.i)[if k < step.i then k else k - 1] == c;
    }
  }

  lemma ServedStays(g: Cluster, step: Step, t: Task, d: nat)
    requires WellFormed(g) && Enabled(g, step) && Served(g, t, d)
    ensures Served(Next(g, step), t, d)
  {
    var x :| x in g.done && ServiceOf(x, t) && x.finish <= Came(t) + d;
    DoneGrows(g, step, x);
  }

  lemma DoneGrows(g: Cluster, step: Step, x: Task)
    requires WellFormed(g) && Enabled(g, step) && x in g.done
    ensures x in Next(g, step).done
  {
  }

  lemma BalancerLeavesTimers(g: Cluster, step: Step)
    requires WellFormed(g) && Enabled(g, step)
    requires step.Arrive? || step.DeliverPull? || step.DeliverRelease? || step.DeliverEvicted? || step.DeliverShed?
    ensures Next(g, step).timers == g.timers
  {
  }

  lemma IntentLeavesTimers(g: Cluster, i: nat)
    requires WellFormed(g) && i < |g.intents|
    ensures IntentDelivered(g, i).timers == g.timers
  {
    assert IntentAt(g.topo, g.intents[i].server, g.intents[i].intent);
    assert CancelAll(g.timers, []) + [] == g.timers;
  }

  lemma PullLeavesTimers(g: Cluster, i: nat)
    requires WellFormed(g) && i < |g.initialPulls|
    ensures InitialPullFired(g, i).timers == g.timers
  {
    assert CancelAll(g.timers, []) + [] == g.timers;
  }

  lemma FiringLeavesTimers(g: Cluster, i: nat)
    requires WellFormed(g) && i < |g.timers|
    ensures TimerFired(g, i).timers == RemoveAt(g.timers, i)
  {
    assert TimerAt(g.topo, g.timers[i]);
    assert CancelAll(RemoveAt(g.timers, i), []) + [] == RemoveAt(g.timers, i);
  }

  /** A step that brings no task and ends no service schedules no timer. */
  lemma NoNewTimer(g: Cluster, step: Step, s: nat, start: Time)
    requires WellFormed(g) && Enabled(g, step) && Timers.NoTimer(g, s, start) && !step.DeliverTask? && !step.FireCompletion?
    ensures Timers.NoTimer(Next(g, step), s, start)
  {
    match step
    case DeliverIntent(i) => IntentLeavesTimers(g, i);
    case FireInitialPull(i) => PullLeavesTimers(g, i);
    case FireTimer(i) => FiringLeavesTimers(g, i);
    case _ => BalancerLeavesTimers(g, step);
  }

  lemma CompletionNoTimer(g: Cluster, i: nat, s: nat, start: Time)
    requires WellFormed(g) && i < |g.completions| && g.servers[g.completions[i].server].inFlight > 0 && Timers.NoTimer(g, s, start)
    ensures Timers.NoTimer(CompletionFired(g, i), s, start)
  {
    var c := g.completions[i];
    var v := g.servers[c.server];
    if v.cfg.mode == S.Push {
      Timers.DrainSchedules(S.Ended(v, c.task, c.at), c.at);
    }
    assert S.Complete(v, c.task, c.at).out.scheduled == [];
  }

  /** A timer for a start is scheduled only for a task that comes with it and stays. */
  lemma NewTimer(g: Cluster, step: Step, s: nat, start: Time)
    requires Ready(g) && Enabled(g, step) && Timers.NoTimer(g, s, start) && s < |g.servers| && !Timers.NoTimer(Next(g, step), s, start)
    ensures step.DeliverTask? && g.tasks[step.i].server == s && g.tasks[step.i].task.start == start
    ensures Services.Pushes(g, s) && s < |Next(g, step).servers|
    ensures Next(g, step).servers[s].queue == g.servers[s].queue + [g.tasks[step.i].task]
  {
    if step.DeliverTask? {
      NewTimerThere(g, step.i, s, start);
    } else if step.FireCompletion? {
      CompletionNoTimer(g, step.i, s, start);
    } else {
      NoNewTimer(g, step, s, start);
    }
  }

  lemma NewTimerThere(g: Cluster, i: nat, s: nat, start: Time)
    requires Ready(g) && i < |g.tasks| && Timers.NoTimer(g, s, start) && s < |g.servers|
    requires !Timers.NoTimer(TaskDelivered(g, i), s, start)
    ensures g.tasks[i].server == s && g.tasks[i].task.start == start && Services.Pushes(g, s)
    ensures TaskDelivered(g, i).servers[s].queue == g.servers[s].queue + [g.tasks[i].task]
  {
    var m := g.tasks[i];
    assert TaskAt(g.topo, m.server, m.task) && ServerAt(g.topo, m.server, g.servers[m.server]) && ServerWired(g.topo, m.server);
    var v := g.servers[m.server];
    if v.cfg.mode == S.Push && v.inFlight >= v.cfg.maxConcurrency {
      Timers.InputComing(v, m.task, g.now);
    }
  }

  /** The promise is kept by every step. */
  lemma NextPromised(g: Cluster, step: Step, s: nat, t: Task, d: nat)
    requires Ready(g) && Enabled(g, step) && Clear(Next(g, step)) && Promised(g, s, t, d) && Services.Pushes(g, s)
    ensures Promised(Next(g, step), s, t, d)
  {
    if Serving(g, s, t, d) {
      ServingGoesOn(g, step, s, t, d);
    } else if Served(g, t, d) {
      ServedStays(g, step, t, d);
    } else {
      TrackedGoesOn(g, step, s, t, d);
    }
  }

  lemma TrackedGoesOn(g: Cluster, step: Step, s: nat, t: Task, d: nat)
    requires Ready(g) && Enabled(g, step) && Clear(Next(g, step)) && Services.Pushes(g, s)
    requires Tracked(g, s, t, d) && Timers.NoTimer(g, s, t.start)
    ensures Promised(Next(g, step), s, t, d)
  {
    var h := Next(g, step);
    EstimateIsKept(g, step, s, t, d);
    if StartsInTime(h, s, t, d) {
      var c :| c in h.completions && c.server == s && c.task == t.(serviceStartedAt := Some(h.now)) && c.at <= Came(t) + d;
      assert ServiceOf(c.task, t);
    } else {
      assert step.FireTimer? ==> g.timers[step.i] in g.timers;
      if !Timers.NoTimer(h, s, t.start) {
        NewTimer(g, step, s, t.start);
        assert DistinctStarts(h.servers[s].queue);
        TwoOfOneStart(g.servers[s].queue, h.servers[s].queue, t, g.tasks[step.i].task);
      }
    }
  }

  lemma TwoOfOneStart(queue: seq<Task>, longer: seq<Task>, t: Task, more: Task)
    requires t in queue && longer == queue + [more] && more.start == t.start
    ensures !DistinctStarts(longer)
  {
    var i :| 0 <= i < |queue| && queue[i] == t;
    assert longer[i].start == longer[|queue|].start;
  }

  /** A task that comes to a full server, stays, and whose estimate is within `d`. */
  ghost predicate Admits(g: Cluster, step: Step, s: nat, t: Task, d: nat)
    requires WellFormed(g) && Enabled(g, step)
  {
    && step.DeliverTask? && g.tasks[step.i] == TaskMsg(s, t) && Services.Pushes(g, s)
    && g.servers[s].inFlight >= g.servers[s].cfg.maxConcurrency
    && s < |Next(g, step).servers| && Next(g, step).servers[s].queue == g.servers[s].queue + [t]
    && S.IdealDelayEstimate(g.servers[s].queue + [t], g.servers[s].services, g.now) <= d
    && (Threshold(g.servers[s].cfg).Some? ==> d <= Threshold(g.servers[s].cfg).value)
  }

  lemma AdmittedUntimed(v: S.ServerState, t: Task, now: Time)
    requires v.Valid() && v.cfg.mode == S.Push && v.inFlight >= v.cfg.maxConcurrency
    requires Threshold(v.cfg).Some? ==> S.IdealDelayEstimate(v.queue + [t], v.services, now) <= Threshold(v.cfg).value
    ensures S.Input(v, t, now).out.scheduled == [] && S.Input(v, t, now).out.cancelled == []
    ensures S.Input(v, t, now).server.services == v.services && S.Input(v, t, now).server.cfg == v.cfg
  {
    InputQueue(v, t, now);
    Timers.InputComing(v, t, now);
  }

  lemma AdmittedTracked(g: Cluster, s: nat, t: Task, d: nat)
    requires Ready(g) && Services.Pushes(g, s) && t.dispatchedAt == Some(g.now)
    requires g.servers[s].inFlight >= g.servers[s].cfg.maxConcurrency && g.servers[s].cfg.maxConcurrency >= 1
    requires S.IdealDelayEstimate(g.servers[s].queue + [t], g.servers[s].services, g.now) <= d
    ensures OnTrack(g.servers[s].services, g.servers[s].queue + [t], |g.servers[s].queue|, d)
  {
    assert Slots.SlotsAt(g, s) && Services.ServicesAt(g, s);
    FullMeansRunning(g, s);
    EstimateMeans(g.servers[s].services, g.servers[s].queue + [t], g.now, d);
  }

  lemma AdmittedEffects(g: Cluster, step: Step, s: nat, t: Task, d: nat)
    requires WellFormed(g) && Enabled(g, step) && Admits(g, step, s, t, d)
    ensures Next(g, step).timers == g.timers && Next(g, step).servers[s].services == g.servers[s].services
    ensures g.servers[s].cfg.maxConcurrency >= 1
  {
    assert ServerAt(g.topo, s, g.servers[s]) && ServerWired(g.topo, s);
    AdmittedUntimed(g.servers[s], t, g.now);
    assert CancelAll(g.timers, []) + [] == g.timers;
  }

  lemma StillNoTimer(g: Cluster, h: Cluster, s: nat, t: Task)
    requires Timers.TimersOk(g) && s < |g.servers| && h.timers == g.timers
    requires DistinctStarts(g.servers[s].queue + [t])
    ensures Timers.NoTimer(h, s, t.start)
  {
    assert Timers.TimersAt(g, s);
    NotAmong(g.servers[s].queue, g.servers[s].queue + [t], t);
    Timers.NotQueuedNoTimer(g, s, t.start);
  }

  lemma AdmittedPromised(g: Cluster, step: Step, s: nat, t: Task, d: nat)
    requires Ready(g) && Timers.TimersOk(g) && Enabled(g, step) && Clear(Next(g, step)) && Admits(g, step, s, t, d)
    ensures Promised(Next(g, step), s, t, d)
  {
    var h := Next(g, step);
    AdmittedEffects(g, step, s, t, d);
    assert g.tasks[step.i].task.dispatchedAt == Some(g.now);
    AdmittedTracked(g, s, t, d);
    assert TrackedAt(h.servers[s], |g.servers[s].queue|, t, d);
    assert DistinctStarts(h.servers[s].queue);
    StillNoTimer(g, h, s, t);
  }

  lemma NotAmong(queue: seq<Task>, longer: seq<Task>, t: Task)
    requires longer == queue + [t] && DistinctStarts(longer)
    ensures !Timers.Queued(queue, t.start)
  {
    forall i | 0 <= i < |queue| ensures queue[i].start != t.start {
      assert longer[i] == queue[i] && longer[|queue|] == t;
    }
  }

  lemma {:induction false} PromiseLasts(states: seq<Cluster>, steps: seq<Step>, i: nat, k: nat, s: nat, t: Task, d: nat)
    requires ClearRun(states, steps) && i <= k <= |steps| && Services.Pushes(states[i], s) && Promised(states[i], s, t, d)
    ensures Promised(states[k], s, t, d)
    decreases k
  {
    if i < k {
      PromiseLasts(states, steps, i, k - 1, s, t, d);
      SamePushes(states, steps, i, k - 1, s);
      PromiseKept(states, steps, k - 1, s, t, d);
    }
  }

  /** The estimate is a promise. If a task comes to a full server, stays, and its estimate is within `d`, and `d` within the
      threshold, then in every later state of the run it waits on track, or it is being served and will be finished
      within `d` of its coming, or it has been: whatever arrives, ends, is evicted or is shed in between. */
  lemma EstimateIsAPromise(states: seq<Cluster>, steps: seq<Step>, i: nat, k: nat, s: nat, t: Task, d: nat)
    requires ClearRun(states, steps) && i < k <= |steps|
    requires StepTo(states[i], steps[i], states[i + 1]) && Admits(states[i], steps[i], s, t, d)
    ensures Promised(states[k], s, t, d)
  {
    PromiseMade(states, steps, i, s, t, d);
    SamePushes(states, steps, i, i + 1, s);
    PromiseLasts(states, steps, i + 1, k, s, t, d);
  }

  /** It is one for every run that starts clear. */
  lemma EstimateKept(states: seq<Cluster>, steps: seq<Step>, i: nat, k: nat, s: nat, t: Task, d: nat)
    requires Run(states, steps) && ClearStart(states[0]) && i < k <= |steps|
    requires StepTo(states[i], steps[i], states[i + 1]) && Admits(states[i], steps[i], s, t, d)
    ensures Promised(states[k], s, t, d)
  {
    ClearThroughout(states, steps);
    EstimateIsAPromise(states, steps, i, k, s, t, d);
  }

  lemma PromiseMade(states: seq<Cluster>, steps: seq<Step>, i: nat, s: nat, t: Task, d: nat)
    requires ClearRun(states, steps) && i < |steps| && StepTo(states[i], steps[i], states[i + 1]) && Admits(states[i], steps[i], s, t, d)
    ensures Promised(states[i + 1], s, t, d)
  {
    GoodAt(states, steps, i);
    assert Clear(states[i + 1]);
    AdmittedPromised(states[i], steps[i], s, t, d);
  }

  lemma PromiseKept(states: seq<Cluster>, steps: seq<Step>, k: nat, s: nat, t: Task, d: nat)
    requires ClearRun(states, steps) && k < |steps| && Services.Pushes(states[k], s) && Promised(states[k], s, t, d)
    ensures Promised(states[k + 1], s, t, d)
  {
    GoodAt(states, steps, k);
    NextGood(states, steps, k);
    NextPromised(states[k], steps[k], s, t, d);
  }

  lemma SamePushes(states: seq<Cluster>, steps: seq<Step>, i: nat, k: nat, s: nat)
    requires Run(states, steps) && i <= k <= |steps| && Services.Pushes(states[i], s)
    ensures Services.Pushes(states[k], s)
  {
    InvariantAt(states, steps, i);
    InvariantAt(states, steps, k);
    assert ServerAt(states[i].topo, s, states[i].servers[s]) && ServerAt(states[k].topo, s, states[k].servers[s]);
  }
}
