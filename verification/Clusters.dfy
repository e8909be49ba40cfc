/** The whole `lb` simulation as one state machine: balancers, servers, messages in transit and scheduled
    events. A handler is one atomic step. Channels are bags: any message in transit may be delivered next,
    without passage of time. Time advances to the earliest scheduled event once every channel is empty. */
module Clusters {
  import opened Domain
  import opened Sums
  import B = Balancers
  import S = Servers
  import Occ = Occupancy

  datatype BalancerRole = BalancerRole(cfg: B.BalancerConfig, nServers: nat)

  /** The wiring, fixed for a run. */
  datatype Topology = Topology(balancers: seq<BalancerRole>, servers: seq<S.ServerConfig>, expressLb: nat)

  datatype Arrival = Arrival(at: Time, lb: nat, task: Task)
  datatype InitialPull = InitialPull(at: Time, server: nat)

  datatype Cluster = Cluster(
    topo: Topology, now: Time, balancers: seq<B.Balancer>, servers: seq<S.ServerState>,
    // Scheduled events.
    arrivals: seq<Arrival>, initialPulls: seq<InitialPull>, completions: seq<S.Completion>, timers: seq<S.TimerEvent>,
    // Messages in transit.
    tasks: seq<TaskMsg>, intents: seq<IntentMsg>, pulls: seq<PullMsg>, releases: seq<ReleaseMsg>,
    evicted: seq<Task>, shed: seq<ShedMsg>,
    // Results: completed tasks, the audit trace, and whether a pull has aborted the program.
    done: seq<Task>, log: seq<PullEvent>, aborted: bool)

  datatype Step =
    | Arrive(i: nat, pick: nat)
    | DeliverTask(i: nat)
    | DeliverIntent(i: nat)
    | DeliverPull(i: nat)
    | DeliverRelease(i: nat)
    | DeliverEvicted(i: nat, pick: nat)
    | DeliverShed(i: nat, pick: nat)
    | FireCompletion(i: nat)
    | FireInitialPull(i: nat)
    | FireTimer(i: nat)

  // Wiring

  ghost predicate ClientLb(p: Topology, b: nat)
  {
    b < |p.balancers| && !p.balancers[b].cfg.preserveMetadata
  }

  ghost predicate ExpressLb(p: Topology)
  {
    && p.expressLb < |p.balancers|
    && p.balancers[p.expressLb].cfg.preserveMetadata
    && p.balancers[p.expressLb].cfg.policy == B.Centralized
  }

  /** What the `run` functions of the simulator connect. */
  ghost predicate Wired(p: Topology)
  {
    && (forall b :: 0 <= b < |p.balancers| ==> BalancerWired(p, b))
    && (forall s :: 0 <= s < |p.servers| ==> ServerWired(p, s))
  }

  ghost predicate BalancerWired(p: Topology, b: nat)
    requires b < |p.balancers|
  {
    var r := p.balancers[b];
    && r.cfg.lbId == b
    && 0 < |r.cfg.serverIndices|
    && r.nServers <= |p.servers|
    && (forall i :: 0 <= i < |r.cfg.serverIndices| ==>
          && r.cfg.serverIndices[i] < r.nServers
          && (r.cfg.policy == B.AmphiQueue ==> p.servers[r.cfg.serverIndices[i]].mode == S.AmphiQueue)
          && (r.cfg.policy == B.Push ==> p.servers[r.cfg.serverIndices[i]].mode == S.Push)
          && (r.cfg.policy == B.Centralized ==> Pullable(p, b, r.cfg.serverIndices[i])))
    && (r.cfg.preserveMetadata ==> b == p.expressLb && r.cfg.policy == B.Centralized)
  }

  ghost predicate ServerWired(p: Topology, s: nat)
    requires s < |p.servers|
  {
    var c := p.servers[s];
    && c.index == s
    && c.maxConcurrency >= 1
    && (c.eviction.None? || c.shedding.None?)
    && c.nBalancers == |p.balancers|
    && (c.isExpress ==> c.mode == S.Centralized && c.homeLb == p.expressLb)
    && (c.mode == S.Centralized ==>
          && c.homeLb < |p.balancers|
          && p.balancers[c.homeLb].cfg.policy == B.Centralized
          && s < p.balancers[c.homeLb].nServers
          && (c.isExpress <==> p.balancers[c.homeLb].cfg.preserveMetadata))
    && (c.eviction.Some? ==> ExpressLb(p))
  }

  /** A dispatched task whose owner and origin are a client balancer and one of its servers. */
  ghost predicate Owned(p: Topology, t: Task)
  {
    ClientLb(p, t.lbId) && t.originServer < p.balancers[t.lbId].nServers && t.dispatchedAt.Some?
  }

  ghost predicate TaskAt(p: Topology, s: nat, t: Task)
  {
    s < |p.servers| && Owned(p, t) && (!p.servers[s].isExpress ==> t.originServer == s)
  }

  ghost predicate IntentAt(p: Topology, s: nat, it: PullIntent)
  {
    && s < |p.servers| && p.servers[s].mode == S.AmphiQueue
    && it.senderId < |p.balancers| && p.balancers[it.senderId].cfg.policy == B.AmphiQueue
    && s < p.balancers[it.senderId].nServers
  }

  ghost predicate PullAt(p: Topology, m: PullMsg)
  {
    && m.lb < |p.balancers| && m.pull.serverIdx < p.balancers[m.lb].nServers <= |p.servers|
    && (match p.balancers[m.lb].cfg.policy
        case AmphiQueue => m.pull.requestId.Some? && p.servers[m.pull.serverIdx].mode == S.AmphiQueue
        case Centralized => Pullable(p, m.lb, m.pull.serverIdx)
        case Push => false)
  }

  ghost predicate Pullable(p: Topology, b: nat, s: nat)
  {
    s < |p.servers| && p.servers[s].mode == S.Centralized && p.servers[s].homeLb == b
  }

  ghost predicate ReleaseAt(p: Topology, r: ReleaseMsg)
  {
    r.lb < |p.balancers| && r.server < p.balancers[r.lb].nServers
  }

  /** A running service: it started, and ends after its duration. */
  ghost predicate CompletionAt(p: Topology, c: S.Completion)
  {
    TaskAt(p, c.server, c.task) && c.task.serviceStartedAt.Some?
    && c.at == c.task.serviceStartedAt.value + c.task.duration
  }

  /** Timers are kept only by servers that evict or shed. */
  ghost predicate TimerAt(p: Topology, e: S.TimerEvent)
  {
    && e.server < |p.servers|
    && (if e.kind == S.Evict then p.servers[e.server].eviction.Some? else p.servers[e.server].shedding.Some?)
  }

  /** A completed task ran without interruption for its duration. */
  ghost predicate FinishedAt(p: Topology, t: Task)
  {
    Owned(p, t) && t.serviceStartedAt.Some? && t.finish == t.serviceStartedAt.value + t.duration
  }

  ghost predicate BalancerAt(p: Topology, b: nat, l: B.Balancer)
    requires b < |p.balancers|
  {
    && l.cfg == p.balancers[b].cfg && |l.localInflight| == p.balancers[b].nServers && l.Valid()
    && (forall i :: 0 <= i < |l.waiting| ==> Pullable(p, b, l.waiting[i]))
    && (l.cfg.preserveMetadata ==> forall i :: 0 <= i < |l.queue| ==> Owned(p, l.queue[i]))
  }

  ghost predicate ServerAt(p: Topology, s: nat, v: S.ServerState)
    requires s < |p.servers|
  {
    && v.cfg == p.servers[s] && v.Valid()
    && (forall i :: 0 <= i < |v.queue| ==> TaskAt(p, s, v.queue[i]))
    && (forall i :: 0 <= i < |v.intents| ==> IntentAt(p, s, v.intents[i]))
    && (v.queue != [] ==> v.cfg.mode == S.Push)
  }

  ghost predicate BalancersAt(p: Topology, balancers: seq<B.Balancer>)
  {
    |balancers| == |p.balancers| && forall b :: 0 <= b < |balancers| ==> BalancerAt(p, b, balancers[b])
  }

  ghost predicate ServersAt(p: Topology, servers: seq<S.ServerState>)
  {
    |servers| == |p.servers| && forall s :: 0 <= s < |servers| ==> ServerAt(p, s, servers[s])
  }

  ghost predicate ArrivalsAt(p: Topology, arrivals: seq<Arrival>)
  {
    forall i :: 0 <= i < |arrivals| ==> ClientLb(p, arrivals[i].lb)
  }

  ghost predicate InitialPullsAt(p: Topology, starts: seq<InitialPull>)
  {
    forall i :: 0 <= i < |starts| ==>
      starts[i].server < |p.servers| && p.servers[starts[i].server].mode == S.Centralized
  }

  ghost predicate CompletionsAt(p: Topology, completions: seq<S.Completion>)
  {
    forall i :: 0 <= i < |completions| ==> CompletionAt(p, completions[i])
  }

  ghost predicate TimersAt(p: Topology, timers: seq<S.TimerEvent>)
  {
    forall i :: 0 <= i < |timers| ==> TimerAt(p, timers[i])
  }

  ghost predicate TasksAt(p: Topology, tasks: seq<TaskMsg>)
  {
    forall i :: 0 <= i < |tasks| ==> TaskAt(p, tasks[i].server, tasks[i].task)
  }

  ghost predicate IntentsAt(p: Topology, intents: seq<IntentMsg>)
  {
    forall i :: 0 <= i < |intents| ==> IntentAt(p, intents[i].server, intents[i].intent)
  }

  ghost predicate PullsAt(p: Topology, pulls: seq<PullMsg>)
  {
    forall i :: 0 <= i < |pulls| ==> PullAt(p, pulls[i])
  }

  ghost predicate ReleasesAt(p: Topology, releases: seq<ReleaseMsg>)
  {
    forall i :: 0 <= i < |releases| ==> ReleaseAt(p, releases[i])
  }

  ghost predicate EvictedAt(p: Topology, evicted: seq<Task>)
  {
    forall i :: 0 <= i < |evicted| ==> Owned(p, evicted[i]) && ExpressLb(p)
  }

  ghost predicate ShedAt(p: Topology, shed: seq<ShedMsg>)
  {
    forall i :: 0 <= i < |shed| ==> ClientLb(p, shed[i].lb) && shed[i].task.lbId == shed[i].lb && Sheds(p)
  }

  ghost predicate Sheds(p: Topology)
  {
    exists s: nat :: s < |p.servers| && p.servers[s].shedding.Some?
  }

  ghost predicate DoneAt(p: Topology, done: seq<Task>)
  {
    forall i :: 0 <= i < |done| ==> FinishedAt(p, done[i])
  }

  /** Every model, message and event is where the wiring says it can be. */
  ghost predicate WellFormed(g: Cluster)
  {
    && Wired(g.topo) && BalancersAt(g.topo, g.balancers) && ServersAt(g.topo, g.servers)
    && ArrivalsAt(g.topo, g.arrivals) && InitialPullsAt(g.topo, g.initialPulls)
    && CompletionsAt(g.topo, g.completions) && TimersAt(g.topo, g.timers)
    && TasksAt(g.topo, g.tasks) && IntentsAt(g.topo, g.intents) && PullsAt(g.topo, g.pulls)
    && ReleasesAt(g.topo, g.releases) && EvictedAt(g.topo, g.evicted) && ShedAt(g.topo, g.shed)
    && DoneAt(g.topo, g.done)
  }

  // Steps

  ghost predicate Quiet(g: Cluster)
  {
    g.tasks == [] && g.intents == [] && g.pulls == [] && g.releases == [] && g.evicted == [] && g.shed == []
  }

  ghost predicate Earliest(g: Cluster, at: Time)
  {
    && (forall i :: 0 <= i < |g.arrivals| ==> at <= g.arrivals[i].at)
    && (forall i :: 0 <= i < |g.initialPulls| ==> at <= g.initialPulls[i].at)
    && (forall i :: 0 <= i < |g.completions| ==> at <= g.completions[i].at)
    && (forall i :: 0 <= i < |g.timers| ==> at <= g.timers[i].at)
  }

  /** A scheduled event may fire when it is the earliest and no message of an earlier instant is pending. */
  ghost predicate Due(g: Cluster, at: Time)
  {
    g.now <= at && (at == g.now || Quiet(g)) && Earliest(g, at)
  }

  ghost predicate CanPick(g: Cluster, b: nat, pick: nat)
  {
    b < |g.balancers| && pick < |g.balancers[b].cfg.serverIndices|
  }

  ghost predicate Enabled(g: Cluster, step: Step)
    requires WellFormed(g)
  {
    !g.aborted &&
    match step
    case Arrive(i, pick) => i < |g.arrivals| && Due(g, g.arrivals[i].at) && CanPick(g, g.arrivals[i].lb, pick)
    case DeliverTask(i) => i < |g.tasks|
    case DeliverIntent(i) => i < |g.intents|
    case DeliverPull(i) => i < |g.pulls|
    case DeliverRelease(i) => i < |g.releases|
    case DeliverEvicted(i, pick) => i < |g.evicted| && CanPick(g, g.topo.expressLb, pick)
    case DeliverShed(i, pick) => i < |g.shed| && CanPick(g, g.shed[i].lb, pick)
    case FireCompletion(i) =>
      i < |g.completions| && Due(g, g.completions[i].at) && g.servers[g.completions[i].server].inFlight > 0
    case FireInitialPull(i) => i < |g.initialPulls| && Due(g, g.initialPulls[i].at)
    case FireTimer(i) => i < |g.timers| && Due(g, g.timers[i].at)
  }

  function CancelAll(timers: seq<S.TimerEvent>, cancelled: seq<S.TimerEvent>): (kept: seq<S.TimerEvent>)
    ensures forall i :: 0 <= i < |kept| ==> kept[i] in timers
    ensures |kept| <= |timers|
    decreases |cancelled|
  {
    if cancelled == [] then timers
    else CancelAll(WithoutFirst(timers, cancelled[0]), cancelled[1..])
  }

  function WithoutFirst(timers: seq<S.TimerEvent>, event: S.TimerEvent): (kept: seq<S.TimerEvent>)
    ensures forall i :: 0 <= i < |kept| ==> kept[i] in timers
    ensures |kept| <= |timers|
  {
    if timers == [] then [] else if timers[0] == event then timers[1..]
    else [timers[0]] + WithoutFirst(timers[1..], event)
  }

  function AfterBalancer(g: Cluster, b: nat, fx: B.Effects): Cluster
    requires b < |g.balancers|
  {
    g.(balancers := g.balancers[b := fx.balancer],
       tasks := g.tasks + fx.out.tasks, intents := g.intents + fx.out.intents, log := g.log + fx.out.audit)
  }

  function AfterServer(g: Cluster, s: nat, fx: S.ServerEffects): Cluster
    requires s < |g.servers|
  {
    g.(servers := g.servers[s := fx.server],
       completions := g.completions + fx.out.completions,
       timers := CancelAll(g.timers, fx.out.cancelled) + fx.out.scheduled,
       pulls := g.pulls + fx.out.pulls, releases := g.releases + fx.out.releases,
       evicted := g.evicted + fx.out.evicted, shed := g.shed + fx.out.shed,
       done := g.done + fx.out.finished, log := g.log + fx.out.audit)
  }

  ghost function Arrived(g: Cluster, i: nat, pick: nat): Cluster
    requires WellFormed(g) && i < |g.arrivals| && CanPick(g, g.arrivals[i].lb, pick)
  {
    var a := g.arrivals[i];
    AfterBalancer(g.(now := a.at, arrivals := RemoveAt(g.arrivals, i)), a.lb,
                  B.Input(g.balancers[a.lb], a.task, a.at, pick))
  }

  ghost function TaskDelivered(g: Cluster, i: nat): Cluster
    requires WellFormed(g) && i < |g.tasks|
  {
    var m := g.tasks[i];
    AfterServer(g.(tasks := RemoveAt(g.tasks, i)), m.server, S.Input(g.servers[m.server], m.task, g.now))
  }

  ghost function IntentDelivered(g: Cluster, i: nat): Cluster
    requires WellFormed(g) && i < |g.intents|
  {
    var m := g.intents[i];
    AfterServer(g.(intents := RemoveAt(g.intents, i)), m.server, S.ReceiveIntent(g.servers[m.server], m.intent))
  }

  ghost function PullDelivered(g: Cluster, i: nat): Cluster
    requires WellFormed(g) && i < |g.pulls|
  {
    var m := g.pulls[i];
    var r := B.Pull(g.balancers[m.lb], m.pull, g.now);
    if r.FatalAbort? then g.(aborted := true)
    else AfterBalancer(g.(pulls := RemoveAt(g.pulls, i)), m.lb, r.effects)
  }

  ghost function ReleaseDelivered(g: Cluster, i: nat): Cluster
    requires WellFormed(g) && i < |g.releases|
  {
    var m := g.releases[i];
    AfterBalancer(g.(releases := RemoveAt(g.releases, i)), m.lb, B.Start(B.Release(g.balancers[m.lb], m.server)))
  }

  ghost function EvictedDelivered(g: Cluster, i: nat, pick: nat): Cluster
    requires WellFormed(g) && i < |g.evicted| && CanPick(g, g.topo.expressLb, pick)
  {
    AfterBalancer(g.(evicted := RemoveAt(g.evicted, i)), g.topo.expressLb,
                  B.Input(g.balancers[g.topo.expressLb], g.evicted[i], g.now, pick))
  }

  ghost function ShedDelivered(g: Cluster, i: nat, pick: nat): Cluster
    requires WellFormed(g) && i < |g.shed| && CanPick(g, g.shed[i].lb, pick)
  {
    var m := g.shed[i];
    AfterBalancer(g.(shed := RemoveAt(g.shed, i)), m.lb, B.Input(g.balancers[m.lb], m.task, g.now, pick))
  }

  ghost function CompletionFired(g: Cluster, i: nat): Cluster
    requires WellFormed(g) && i < |g.completions| && g.servers[g.completions[i].server].inFlight > 0
  {
    var c := g.completions[i];
    AfterServer(g.(now := c.at, completions := RemoveAt(g.completions, i)), c.server,
                S.Complete(g.servers[c.server], c.task, c.at))
  }

  ghost function InitialPullFired(g: Cluster, i: nat): Cluster
    requires WellFormed(g) && i < |g.initialPulls|
  {
    var p := g.initialPulls[i];
    AfterServer(g.(now := p.at, initialPulls := RemoveAt(g.initialPulls, i)), p.server,
                S.RequestPull(g.servers[p.server]))
  }

  ghost function TimerFired(g: Cluster, i: nat): Cluster
    requires WellFormed(g) && i < |g.timers|
  {
    var e := g.timers[i];
    AfterServer(g.(now := e.at, timers := RemoveAt(g.timers, i)), e.server, TimerEffects(g.servers[e.server], e))
  }

  function TimerEffects(v: S.ServerState, e: S.TimerEvent): S.ServerEffects
  {
    if e.kind == S.Evict then S.EvictTask(v, e.start, e.at) else S.ShedTask(v, e.start, e.at)
  }

  ghost function Next(g: Cluster, step: Step): Cluster
    requires WellFormed(g) && Enabled(g, step)
  {
    match step
    case Arrive(i, pick) => Arrived(g, i, pick)
    case DeliverTask(i) => TaskDelivered(g, i)
    case DeliverIntent(i) => IntentDelivered(g, i)
    case DeliverPull(i) => PullDelivered(g, i)
    case DeliverRelease(i) => ReleaseDelivered(g, i)
    case DeliverEvicted(i, pick) => EvictedDelivered(g, i, pick)
    case DeliverShed(i, pick) => ShedDelivered(g, i, pick)
    case FireCompletion(i) => CompletionFired(g, i)
    case FireInitialPull(i) => InitialPullFired(g, i)
    case FireTimer(i) => TimerFired(g, i)
  }

  /** A fresh simulation: idle models, `maxConcurrency` initial pull events for each pulling server, and the
      arrivals that the sources have scheduled. */
  ghost predicate Initial(g: Cluster)
  {
    && WellFormed(g)
    && (forall b :: 0 <= b < |g.balancers| ==> FreshBalancer(g.balancers[b]))
    && (forall s :: 0 <= s < |g.servers| ==>
          g.servers[s] == S.ServerState(g.topo.servers[s], 0, 0, [], [], [], [], [], Occ.EMPTY, 0))
    && (forall s :: 0 <= s < |g.servers| && g.topo.servers[s].mode == S.Centralized ==>
          Sum(g.initialPulls, StartsAt(s)) == g.topo.servers[s].maxConcurrency)
    && (forall i :: 0 <= i < |g.arrivals| ==> g.arrivals[i].at == g.arrivals[i].task.start >= g.now)
    && (forall i :: 0 <= i < |g.initialPulls| ==> g.initialPulls[i].at >= g.now)
    && g.completions == [] && g.timers == [] && Quiet(g)
    && g.done == [] && g.log == [] && !g.aborted
  }

  ghost predicate FreshBalancer(l: B.Balancer)
  {
    && |l.intentLoad| == |l.localInflight|
    && (forall i :: 0 <= i < |l.localInflight| ==> l.localInflight[i] == 0 && l.intentLoad[i] == 0)
    && l.queue == [] && l.waiting == [] && l.nextTaskId == 0 && l.occupancy == Occ.EMPTY
  }

  function StartsAt(s: nat): InitialPull -> int
  {
    (p: InitialPull) => if p.server == s then 1 else 0
  }

  ghost predicate StepTo(g: Cluster, step: Step, h: Cluster)
  {
    WellFormed(g) && Enabled(g, step) && h == Next(g, step)
  }

  /** A run: the states a simulation passes through, one handler at a time. */
  ghost predicate Run(states: seq<Cluster>, steps: seq<Step>)
  {
    && |states| == |steps| + 1
    && Initial(states[0])
    && forall i :: 0 <= i < |steps| ==> StepTo(states[i], steps[i], states[i + 1])
  }
}
