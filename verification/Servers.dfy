/** The server: concurrent slots, a FIFO queue with eviction or shedding in push mode, and the server
    side of the centralized and AmphiQueue pull protocols. */
module Servers {
  import opened Domain
  import opened Sums
  import opened Occupancy

  datatype DispatchMode = Push | Centralized | AmphiQueue

  datatype DelayMode = Monitored | ImmediateIdeal

  datatype EvictionPolicy =
    | QueueDepth(depth: nat)
    | QueueDelay(threshold: nat, mode: DelayMode)
    | Combined(depth: nat, threshold: nat)

  /** One running service, as the delay estimate sees it. */
  datatype Service = Service(startedAt: Time, duration: nat)

  /** A queued task with a scheduled eviction or shedding event. */
  datatype Timer = Timer(start: Time, at: Time)

  /** Events that a server schedules for itself. */
  datatype Completion = Completion(at: Time, server: nat, task: Task)
  datatype TimerKind = Evict | Shed
  datatype TimerEvent = TimerEvent(kind: TimerKind, at: Time, server: nat, start: Time)

  /** Fixed when the server is built. `homeLb` is the balancer behind the centralized pull port. */
  datatype ServerConfig = ServerConfig(
    index: nat, maxConcurrency: nat, mode: DispatchMode, isExpress: bool, homeLb: nat, nBalancers: nat,
    eviction: Option<EvictionPolicy>, shedding: Option<nat>)

  datatype ServerState = ServerState(
    cfg: ServerConfig, inFlight: nat, pendingPulls: nat, services: seq<Service>, queue: seq<Task>, intents: seq<PullIntent>,
    pendingEvictions: seq<Timer>, pendingSheds: seq<Timer>, occupancy: Accumulator, busy: nat)
  {
    /** At least one slot, and eviction is never combined with shedding. */
    ghost predicate Valid()
    {
      cfg.maxConcurrency >= 1 && (cfg.eviction.None? || cfg.shedding.None?)
    }
  }

  /** A server together with what one handler has sent and scheduled so far. */
  datatype ServerEffects = ServerEffects(server: ServerState, out: Outbox)

  /** What a handler hands to the output ports, the scheduler and the audit. */
  datatype Outbox = Outbox(
    completions: seq<Completion>, scheduled: seq<TimerEvent>, cancelled: seq<TimerEvent>,
    releases: seq<ReleaseMsg>, pulls: seq<PullMsg>, finished: seq<Task>, evicted: seq<Task>,
    shed: seq<ShedMsg>, audit: seq<PullEvent>)

  const NOTHING := Outbox([], [], [], [], [], [], [], [], [])

  function Begin(s: ServerState): ServerEffects
  {
    ServerEffects(s, NOTHING)
  }

  // Delay estimates

  function RemainingService(s: Service, now: Time): nat
  {
    SaturatingSub(s.duration, SaturatingSub(now, s.startedAt))
  }

  /** The longest time any running service has been running. */
  function HeadOfLineWait(services: seq<Service>, now: Time): (wait: nat)
    ensures forall i :: 0 <= i < |services| ==> SaturatingSub(now, services[i].startedAt) <= wait
    ensures services != [] ==> exists i :: 0 <= i < |services| && SaturatingSub(now, services[i].startedAt) == wait
  {
    if services == [] then 0
    else
      var last := SaturatingSub(now, services[|services| - 1].startedAt);
      if |services| == 1 then last else Max(HeadOfLineWait(services[..|services| - 1], now), last)
  }

  predicate HeadOfLineExceeds(services: seq<Service>, now: Time, threshold: nat)
  {
    services != [] && HeadOfLineWait(services, now) > threshold
  }

  function QueueWork(queue: seq<Task>): nat
  {
    if queue == [] then 0 else QueueWork(queue[..|queue| - 1]) + queue[|queue| - 1].duration
  }

  /** The least remaining time of the running services; zero when nothing runs. */
  function MinRemaining(services: seq<Service>, now: Time): (m: nat)
    ensures forall i :: 0 <= i < |services| ==> m <= RemainingService(services[i], now)
    ensures services != [] ==> exists i :: 0 <= i < |services| && RemainingService(services[i], now) == m
  {
    if services == [] then 0
    else
      var last := RemainingService(services[|services| - 1], now);
      if |services| == 1 then last else Min(MinRemaining(services[..|services| - 1], now), last)
  }

  function IdealDelayEstimate(queue: seq<Task>, services: seq<Service>, now: Time): nat
  {
    QueueWork(queue) + MinRemaining(services, now)
  }

  // Eviction and shedding

  function Rif(s: ServerState): nat
  {
    |s.queue| + s.inFlight
  }

  function SampleLevel(s: ServerState, now: Time): ServerState
  {
    s.(occupancy := Sampled(s.occupancy, now, Rif(s)))
  }

  /** The first timer kept for a task start, or the number of timers. */
  function TimerPosition(timers: seq<Timer>, start: Time): (i: nat)
    ensures i <= |timers|
    ensures i < |timers| ==> timers[i].start == start
    ensures forall j :: 0 <= j < i ==> timers[j].start != start
  {
    if timers == [] then 0 else if timers[0].start == start then 0 else 1 + TimerPosition(timers[1..], start)
  }

  function WithoutTimers(timers: seq<Timer>, start: Time): (kept: seq<Timer>)
    ensures forall i :: 0 <= i < |kept| ==> kept[i].start != start && kept[i] in timers
    ensures forall i :: 0 <= i < |timers| && timers[i].start != start ==> timers[i] in kept
  {
    if timers == [] then []
    else if timers[0].start == start then WithoutTimers(timers[1..], start)
    else [timers[0]] + WithoutTimers(timers[1..], start)
  }

  function TaskPosition(queue: seq<Task>, start: Time): (i: nat)
    ensures i <= |queue|
    ensures i < |queue| ==> queue[i].start == start
    ensures forall j :: 0 <= j < i ==> queue[j].start != start
  {
    if queue == [] then 0 else if queue[0].start == start then 0 else 1 + TaskPosition(queue[1..], start)
  }

  function CancelEviction(fx: ServerEffects, start: Time): ServerEffects
  {
    var s := fx.server;
    var i := TimerPosition(s.pendingEvictions, start);
    if i == |s.pendingEvictions| then fx
    else
      fx.(server := s.(pendingEvictions := RemoveAt(s.pendingEvictions, i)),
          out := fx.out.(cancelled := fx.out.cancelled
            + [TimerEvent(Evict, s.pendingEvictions[i].at, s.cfg.index, start)]))
  }

  function CancelShed(fx: ServerEffects, start: Time): ServerEffects
  {
    var s := fx.server;
    var i := TimerPosition(s.pendingSheds, start);
    if i == |s.pendingSheds| then fx
    else
      fx.(server := s.(pendingSheds := RemoveAt(s.pendingSheds, i)),
          out := fx.out.(cancelled := fx.out.cancelled
            + [TimerEvent(Shed, s.pendingSheds[i].at, s.cfg.index, start)]))
  }

  function ScheduleEviction(fx: ServerEffects, start: Time, threshold: nat, now: Time): ServerEffects
  {
    var s := fx.server;
    fx.(server := s.(pendingEvictions := s.pendingEvictions + [Timer(start, now + threshold)]),
        out := fx.out.(scheduled := fx.out.scheduled + [TimerEvent(Evict, now + threshold, s.cfg.index, start)]))
  }

  function ScheduleShed(fx: ServerEffects, start: Time, threshold: nat, now: Time): ServerEffects
  {
    var s := fx.server;
    fx.(server := s.(pendingSheds := s.pendingSheds + [Timer(start, now + threshold)]),
        out := fx.out.(scheduled := fx.out.scheduled + [TimerEvent(Shed, now + threshold, s.cfg.index, start)]))
  }

  /** Takes the task at position `i` out of the queue and forwards it to the express balancer. */
  function EvictAt(fx: ServerEffects, i: nat, now: Time): ServerEffects
    requires i < |fx.server.queue|
  {
    var s := fx.server;
    fx.(server := SampleLevel(s.(queue := RemoveAt(s.queue, i)), now),
        out := fx.out.(evicted := fx.out.evicted + [s.queue[i].(evictedAt := Some(now))]))
  }

  /** Takes the task at position `i` out of the queue, releases it and returns it to its balancer. */
  function ShedAt(fx: ServerEffects, i: nat, now: Time): ServerEffects
    requires i < |fx.server.queue|
  {
    var s := fx.server;
    var task := s.queue[i].(shedAt := Some(now));
    fx.(server := SampleLevel(s.(queue := RemoveAt(s.queue, i)), now),
        out := fx.out.(releases := fx.out.releases + [ReleaseMsg(task.lbId, s.cfg.index)],
                       shed := fx.out.shed + [ShedMsg(task.lbId, task)]))
  }

  function EvictNewest(fx: ServerEffects, now: Time): ServerEffects
    requires fx.server.queue != []
  {
    EvictAt(fx, |fx.server.queue| - 1, now)
  }

  function ApplyEviction(fx: ServerEffects, start: Time, now: Time): ServerEffects
    requires fx.server.queue != []
  {
    var s := fx.server;
    match s.cfg.eviction
    case None => fx
    case Some(QueueDepth(depth)) => if |s.queue| > depth then EvictNewest(fx, now) else fx
    case Some(QueueDelay(threshold, mode)) =>
      if HeadOfLineExceeds(s.services, now, threshold)
         || (mode == ImmediateIdeal && IdealDelayEstimate(s.queue, s.services, now) > threshold)
      then EvictNewest(fx, now)
      else if mode == Monitored && IdealDelayEstimate(s.queue, s.services, now) > threshold
      then ScheduleEviction(fx, start, threshold, now)
      else fx
    case Some(Combined(depth, threshold)) =>
      if |s.queue| > depth then EvictNewest(fx, now)
      else if HeadOfLineExceeds(s.services, now, threshold) then EvictNewest(fx, now)
      else if IdealDelayEstimate(s.queue, s.services, now) > threshold
      then ScheduleEviction(fx, start, threshold, now)
      else fx
  }

  function ApplyShedding(fx: ServerEffects, start: Time, now: Time): ServerEffects
    requires fx.server.cfg.shedding.Some? ==> fx.server.queue != []
  {
    var s := fx.server;
    match s.cfg.shedding
    case None => fx
    case Some(threshold) =>
      if HeadOfLineExceeds(s.services, now, threshold) then ShedAt(fx, |s.queue| - 1, now)
      else if IdealDelayEstimate(s.queue, s.services, now) > threshold
      then ScheduleShed(fx, start, threshold, now)
      else fx
  }

  // Service

  function BeginService(fx: ServerEffects, task: Task, now: Time): ServerEffects
  {
    var freed := CancelShed(CancelEviction(fx, task.start), task.start);
    var s := freed.server;
    freed.(server := SampleLevel(s.(services := s.services + [Service(now, task.duration)],
                                    inFlight := s.inFlight + 1), now),
           out := freed.out.(completions := freed.out.completions
             + [Completion(now + task.duration, s.cfg.index, task.(serviceStartedAt := Some(now)))]))
  }

  function TakeHead(fx: ServerEffects, now: Time): ServerEffects
    requires fx.server.queue != []
  {
    fx.(server := SampleLevel(fx.server.(queue := RemoveAt(fx.server.queue, 0)), now))
  }

  function DrainQueue(fx: ServerEffects, now: Time): ServerEffects
    decreases |fx.server.queue|
  {
    var s := fx.server;
    if s.inFlight >= s.cfg.maxConcurrency || s.queue == [] then fx
    else DrainQueue(BeginService(TakeHead(fx, now), s.queue[0], now), now)
  }

  /** The first running service with this start time, or the number of running services. */
  function ServicePosition(services: seq<Service>, startedAt: Time): (i: nat)
    ensures i <= |services|
    ensures i < |services| ==> services[i].startedAt == startedAt
    ensures forall j :: 0 <= j < i ==> services[j].startedAt != startedAt
  {
    if services == [] then 0 else if services[0].startedAt == startedAt then 0
    else 1 + ServicePosition(services[1..], startedAt)
  }

  function RemoveInFlight(services: seq<Service>, startedAt: Time): seq<Service>
  {
    var i := ServicePosition(services, startedAt);
    if i == |services| then services else RemoveAt(services, i)
  }

  /** Answers at most one queued intent, and only while a slot is unreserved. */
  function DrainIntents(fx: ServerEffects): ServerEffects
  {
    var s := fx.server;
    if s.inFlight + s.pendingPulls >= s.cfg.maxConcurrency || s.intents == [] then fx
    else
      var intent := s.intents[0];
      var event := IntentDrained(s.cfg.index, intent.senderId, intent.requestId, |s.intents|,
                                 s.pendingPulls, s.inFlight, s.cfg.maxConcurrency);
      var popped := fx.(server := s.(intents := s.intents[1..]), out := fx.out.(audit := fx.out.audit + [event]));
      if intent.senderId < s.cfg.nBalancers then
        popped.(server := popped.server.(pendingPulls := s.pendingPulls + 1),
                out := popped.out.(pulls := fx.out.pulls
                  + [PullMsg(intent.senderId, PullRequest(s.cfg.index, Some(intent.requestId)))]))
      else popped
  }

  // Handlers

  function Input(s: ServerState, task: Task, now: Time): ServerEffects
    requires s.Valid()
  {
    if s.cfg.mode == AmphiQueue then
      BeginService(Begin(s.(pendingPulls := SaturatingSub(s.pendingPulls, 1))), task, now)
    else if s.cfg.mode == Centralized || s.inFlight < s.cfg.maxConcurrency then
      BeginService(Begin(s), task, now)
    else
      var queued := Begin(SampleLevel(s.(queue := s.queue + [task]), now));
      ApplyShedding(ApplyEviction(queued, task.start, now), task.start, now)
  }

  function ReceiveIntent(s: ServerState, intent: PullIntent): ServerEffects
  {
    if s.cfg.mode != AmphiQueue then Begin(s)
    else
      var event := IntentQueued(s.cfg.index, intent.senderId, intent.requestId, |s.intents|);
      DrainIntents(ServerEffects(s.(intents := s.intents + [intent]), NOTHING.(audit := [event])))
  }

  function RequestPull(s: ServerState): ServerEffects
  {
    if s.cfg.mode == Centralized && s.inFlight < s.cfg.maxConcurrency
    then ServerEffects(s, NOTHING.(pulls := [PullMsg(s.cfg.homeLb, PullRequest(s.cfg.index, None))]))
    else Begin(s)
  }

  function EvictTask(s: ServerState, start: Time, now: Time): ServerEffects
  {
    var cleared := Begin(s.(pendingEvictions := WithoutTimers(s.pendingEvictions, start)));
    var i := TaskPosition(s.queue, start);
    if i == |s.queue| then cleared else EvictAt(cleared, i, now)
  }

  function ShedTask(s: ServerState, start: Time, now: Time): ServerEffects
  {
    var cleared := Begin(s.(pendingSheds := WithoutTimers(s.pendingSheds, start)));
    var i := TaskPosition(s.queue, start);
    if i == |s.queue| then cleared else ShedAt(cleared, i, now)
  }

  function ReleasesOf(s: ServerState, task: Task): seq<ReleaseMsg>
  {
    if s.cfg.isExpress then [ReleaseMsg(s.cfg.homeLb, s.cfg.index), ReleaseMsg(task.lbId, task.originServer)]
    else [ReleaseMsg(task.lbId, s.cfg.index)]
  }

  /** The state after a service ends and before the freed slot is offered again. */
  function Ended(s: ServerState, task: Task, now: Time): ServerEffects
    requires s.inFlight > 0
  {
    var services := if task.serviceStartedAt.Some?
                    then RemoveInFlight(s.services, task.serviceStartedAt.value) else s.services;
    ServerEffects(
      SampleLevel(s.(services := services, busy := s.busy + task.duration, inFlight := s.inFlight - 1), now),
      NOTHING.(finished := [task.(finish := now, servedByExpress := s.cfg.isExpress)],
               releases := ReleasesOf(s, task)))
  }

  function Complete(s: ServerState, task: Task, now: Time): ServerEffects
    requires s.inFlight > 0
  {
    var ended := Ended(s, task, now);
    match s.cfg.mode
    case Centralized =>
      ended.(out := ended.out.(pulls := [PullMsg(s.cfg.homeLb, PullRequest(s.cfg.index, None))]))
    case AmphiQueue => DrainIntents(ended)
    case Push => DrainQueue(ended, now)
  }

  class Server {
    const cfg: ServerConfig
    var inFlight: nat
    var pendingPulls: nat
    var services: seq<Service>
    var queue: seq<Task>
    var intents: seq<PullIntent>
    var pendingEvictions: seq<Timer>
    var pendingSheds: seq<Timer>
    var occupancy: Accumulator
    var busy: nat
    // Output ports, scheduled events and audit: what the current handler has sent.
    var out: Outbox

    ghost function State(): ServerState
      reads this
    {
      ServerState(cfg, inFlight, pendingPulls, services, queue, intents, pendingEvictions, pendingSheds,
                  occupancy, busy)
    }

    ghost function Sent(): ServerEffects
      reads this
    {
      ServerEffects(State(), out)
    }

    constructor (cfg: ServerConfig)
      requires cfg.eviction.None? || cfg.shedding.None?
      ensures this.cfg == cfg.(maxConcurrency := Max(cfg.maxConcurrency, 1)) && State().Valid()
      ensures Sent() == Begin(ServerState(this.cfg, 0, 0, [], [], [], [], [], EMPTY, 0))
    {
      this.cfg := cfg.(maxConcurrency := Max(cfg.maxConcurrency, 1));
      inFlight, pendingPulls, services, queue, intents := 0, 0, [], [], [];
      pendingEvictions, pendingSheds, occupancy, busy, out := [], [], EMPTY, 0, NOTHING;
    }

    method RecordOccupancy(now: Time)
      modifies this`occupancy
      ensures State() == SampleLevel(old(State()), now)
    {
      occupancy := Sampled(occupancy, now, |queue| + inFlight);
    }

    method CancelPendingEviction(start: Time)
      modifies this`pendingEvictions, this`out
      ensures Sent() == CancelEviction(old(Sent()), start)
    {
      var i := TimerPosition(pendingEvictions, start);
      if i < |pendingEvictions| {
        out := out.(cancelled := out.cancelled + [TimerEvent(Evict, pendingEvictions[i].at, cfg.index, start)]);
        pendingEvictions := RemoveAt(pendingEvictions, i);
      }
    }

    method CancelPendingShed(start: Time)
      modifies this`pendingSheds, this`out
      ensures Sent() == CancelShed(old(Sent()), start)
    {
      var i := TimerPosition(pendingSheds, start);
      if i < |pendingSheds| {
        out := out.(cancelled := out.cancelled + [TimerEvent(Shed, pendingSheds[i].at, cfg.index, start)]);
        pendingSheds := RemoveAt(pendingSheds, i);
      }
    }

    method ScheduleMonitoredEviction(start: Time, threshold: nat, now: Time)
      modifies this`pendingEvictions, this`out
      ensures Sent() == ScheduleEviction(old(Sent()), start, threshold, now)
    {
      out := out.(scheduled := out.scheduled + [TimerEvent(Evict, now + threshold, cfg.index, start)]);
      pendingEvictions := pendingEvictions + [Timer(start, now + threshold)];
    }

    method ScheduleMonitoredShed(start: Time, threshold: nat, now: Time)
      modifies this`pendingSheds, this`out
      ensures Sent() == ScheduleShed(old(Sent()), start, threshold, now)
    {
      out := out.(scheduled := out.scheduled + [TimerEvent(Shed, now + threshold, cfg.index, start)]);
      pendingSheds := pendingSheds + [Timer(start, now + threshold)];
    }

    method ForwardEvicted(i: nat, now: Time)
      requires i < |queue|
      modifies this`queue, this`occupancy, this`out
      ensures Sent() == EvictAt(old(Sent()), i, now)
    {
      var task := queue[i].(evictedAt := Some(now));
      queue := queue[..i] + queue[i + 1..];
      RecordOccupancy(now);
      out := out.(evicted := out.evicted + [task]);
    }

    method ForwardShed(i: nat, now: Time)
      requires i < |queue|
      modifies this`queue, this`occupancy, this`out
      ensures Sent() == ShedAt(old(Sent()), i, now)
    {
      var task := queue[i].(shedAt := Some(now));
      queue := queue[..i] + queue[i + 1..];
      RecordOccupancy(now);
      out := out.(releases := out.releases + [ReleaseMsg(task.lbId, cfg.index)]);
      out := out.(shed := out.shed + [ShedMsg(task.lbId, task)]);
    }

    method ApplyEnqueueEviction(start: Time, now: Time)
      requires queue != []
      modifies this`queue, this`occupancy, this`out, this`pendingEvictions
      ensures Sent() == ApplyEviction(old(Sent()), start, now)
    {
      match cfg.eviction {
        case None =>
        case Some(QueueDepth(depth)) =>
          if |queue| > depth {
            ForwardEvicted(|queue| - 1, now);
          }
        case Some(QueueDelay(threshold, delayMode)) =>
          if HeadOfLineExceeds(services, now, threshold)
             || (delayMode == ImmediateIdeal && IdealDelayEstimate(queue, services, now) > threshold) {
            ForwardEvicted(|queue| - 1, now);
          } else if delayMode == Monitored && IdealDelayEstimate(queue, services, now) > threshold {
            ScheduleMonitoredEviction(start, threshold, now);
          }
        case Some(Combined(depth, threshold)) =>
          if |queue| > depth {
            ForwardEvicted(|queue| - 1, now);
          } else if HeadOfLineExceeds(services, now, threshold) {
            ForwardEvicted(|queue| - 1, now);
          } else if IdealDelayEstimate(queue, services, now) > threshold {
            ScheduleMonitoredEviction(start, threshold, now);
          }
      }
    }

    method ApplyWorkShedding(start: Time, now: Time)
      requires cfg.shedding.Some? ==> queue != []
      modifies this`queue, this`occupancy, this`out, this`pendingSheds
      ensures Sent() == ApplyShedding(old(Sent()), start, now)
    {
      if cfg.shedding.None? {
        return;
      }
      if HeadOfLineExceeds(services, now, cfg.shedding.value) {
        ForwardShed(|queue| - 1, now);
      } else if IdealDelayEstimate(queue, services, now) > cfg.shedding.value {
        ScheduleMonitoredShed(start, cfg.shedding.value, now);
      }
    }

    method StartService(task: Task, now: Time)
      modifies this`pendingEvictions, this`pendingSheds, this`out, this`services, this`inFlight, this`occupancy
      ensures Sent() == BeginService(old(Sent()), task, now)
    {
      CancelPendingEviction(task.start);
      CancelPendingShed(task.start);
      services := services + [Service(now, task.duration)];
      inFlight := inFlight + 1;
      RecordOccupancy(now);
      out := out.(completions := out.completions + [Completion(now + task.duration, cfg.index, task.(serviceStartedAt := Some(now)))]);
    }

    method DrainTaskQueue(now: Time)
      modifies this`queue, this`pendingEvictions, this`pendingSheds, this`out, this`services, this`inFlight,
               this`occupancy
      ensures Sent() == DrainQueue(old(Sent()), now)
    {
      while inFlight < cfg.maxConcurrency && queue != []
        invariant DrainQueue(Sent(), now) == DrainQueue(old(Sent()), now)
        decreases |queue|
      {
        ghost var before := Sent();
        var next := queue[0];
        queue := queue[1..];
        assert queue == RemoveAt(before.server.queue, 0);
        RecordOccupancy(now);
        assert Sent() == TakeHead(before, now);
        StartService(next, now);
      }
    }

    method RemoveService(startedAt: Time)
      modifies this`services
      ensures services == RemoveInFlight(old(services), startedAt)
    {
      var i := ServicePosition(services, startedAt);
      if i < |services| {
        services := services[..i] + services[i + 1..];
      }
    }

    method DrainPullIntents()
      modifies this`intents, this`pendingPulls, this`out
      ensures Sent() == DrainIntents(old(Sent()))
    {
      if inFlight + pendingPulls >= cfg.maxConcurrency || intents == [] {
        return;
      }
      var intent := intents[0];
      out := out.(audit := out.audit + [IntentDrained(cfg.index, intent.senderId, intent.requestId, |intents|,
                                                      pendingPulls, inFlight, cfg.maxConcurrency)]);
      intents := intents[1..];
      pendingPulls := pendingPulls + 1;
      if intent.senderId < cfg.nBalancers {
        out := out.(pulls := out.pulls + [PullMsg(intent.senderId, PullRequest(cfg.index, Some(intent.requestId)))]);
      } else {
        pendingPulls := SaturatingSub(pendingPulls, 1);
      }
    }

    method HandleInput(task: Task, now: Time)
      requires State().Valid()
      modifies this
      ensures Sent() == Input(old(State()), task, now)
    {
      out := NOTHING;
      if cfg.mode == Centralized || cfg.mode == AmphiQueue {
        if cfg.mode == AmphiQueue {
          pendingPulls := SaturatingSub(pendingPulls, 1);
        }
        StartService(task, now);
        return;
      }
      if inFlight < cfg.maxConcurrency {
        StartService(task, now);
      } else {
        queue := queue + [task];
        RecordOccupancy(now);
        ApplyEnqueueEviction(task.start, now);
        ApplyWorkShedding(task.start, now);
      }
    }

    method HandlePullIntent(intent: PullIntent)
      modifies this
      ensures Sent() == ReceiveIntent(old(State()), intent)
    {
      out := NOTHING;
      if cfg.mode != AmphiQueue {
        return;
      }
      out := out.(audit := [IntentQueued(cfg.index, intent.senderId, intent.requestId, |intents|)]);
      intents := intents + [intent];
      DrainPullIntents();
    }

    method HandleRequestPull()
      modifies this
      ensures Sent() == RequestPull(old(State()))
    {
      out := NOTHING;
      if cfg.mode == Centralized && inFlight < cfg.maxConcurrency {
        out := out.(pulls := [PullMsg(cfg.homeLb, PullRequest(cfg.index, None))]);
      }
    }

    method HandleEvictTimer(start: Time, now: Time)
      modifies this
      ensures Sent() == EvictTask(old(State()), start, now)
    {
      out := NOTHING;
      pendingEvictions := WithoutTimers(pendingEvictions, start);
      var i := TaskPosition(queue, start);
      if i < |queue| {
        ForwardEvicted(i, now);
      }
    }

    method HandleShedTimer(start: Time, now: Time)
      modifies this
      ensures Sent() == ShedTask(old(State()), start, now)
    {
      out := NOTHING;
      pendingSheds := WithoutTimers(pendingSheds, start);
      var i := TaskPosition(queue, start);
      if i < |queue| {
        ForwardShed(i, now);
      }
    }

    method HandleComplete(task: Task, now: Time)
      requires inFlight > 0
      modifies this
      ensures Sent() == Complete(old(State()), task, now)
    {
      ghost var before := State();
      out := NOTHING;
      if task.serviceStartedAt.Some? {
        RemoveService(task.serviceStartedAt.value);
      }
      busy := busy + task.duration;
      out := out.(finished := [task.(finish := now, servedByExpress := cfg.isExpress)]);
      if cfg.isExpress {
        out := out.(releases := [ReleaseMsg(cfg.homeLb, cfg.index), ReleaseMsg(task.lbId, task.originServer)]);
      } else {
        out := out.(releases := [ReleaseMsg(task.lbId, cfg.index)]);
      }
      inFlight := inFlight - 1;
      RecordOccupancy(now);
      assert Sent() == Ended(before, task, now);
      match cfg.mode {
        case Centralized => out := out.(pulls := [PullMsg(cfg.homeLb, PullRequest(cfg.index, None))]);
        case AmphiQueue => DrainPullIntents();
        case Push => DrainTaskQueue(now);
      }
    }
  }
}
