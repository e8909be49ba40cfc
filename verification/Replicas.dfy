/** A microservice replica. It serves one endpoint of a request at a time, then sends the request on to the next
    child, back to its caller, or out of the system. What is left to do is kept in the chain of caller references
    that travels with the request. */
module Replicas {
  import opened Domain
  import opened CallGraphs
  import Edf

  /** Where a request continues when the endpoint it is sent to has been served. */
  datatype CallerRef = CallerRef(
    microservice: string, server: nat, resumeEndpoint: Endpoint, resumeSibling: nat,
    resumeCaller: Option<CallerRef>, outboundTarget: string, outboundServer: nat)

  datatype Release = Release(target: string, server: nat)

  datatype Hop = Hop(
    requestId: nat, api: string, endpoint: Endpoint, sibling: nat, start: Time, deadline: Time, duration: nat,
    processing: nat, caller: Option<CallerRef>, outboundRelease: Option<Release>, slotRelease: Option<Release>)

  datatype Work = Upstream(hop: Hop) | DownstreamReturn(hop: Hop)

  datatype Address = Address(microservice: string, server: nat)
  datatype OutboundCall = OutboundCall(target: string, hop: Hop)
  datatype ReturnMsg = ReturnMsg(to: Address, hop: Hop)
  datatype Service = Service(at: Time, host: Address, hop: Hop)
  datatype CompletedRequest = CompletedRequest(requestId: nat, api: string, start: Time, finish: Time, processing: nat)

  datatype JbsqEvent =
    | PullSent(host: Address, occupancyBefore: nat, pendingBefore: nat, n: nat)
    | PullArrived(host: Address, queueBefore: nat, inFlightBefore: nat, pendingBefore: nat, n: nat)

  /** The parts of the call graph that replicas read: edges, the microservice of each endpoint, and the endpoints with
      a service time. */
  datatype Graph = Graph(children: Edges, owner: map<Endpoint, string>, timed: set<Endpoint>)

  datatype ReplicaConfig = ReplicaConfig(
    at: Address, maxConcurrency: nat, edf: bool, pulls: bool, jbsqN: Option<nat>)

  datatype ReplicaState = ReplicaState(cfg: ReplicaConfig, inFlight: nat, pendingPulls: nat, queue: seq<Work>)

  datatype Outbox = Outbox(
    calls: seq<OutboundCall>, replies: seq<ReturnMsg>, begun: seq<Service>, completed: seq<CompletedRequest>,
    lost: seq<Hop>, releases: seq<Release>, edgeReleases: seq<string>, pulls: nat, audit: seq<JbsqEvent>)

  const NOTHING := Outbox([], [], [], [], [], [], [], 0, [])

  datatype Effects = Effects(replica: ReplicaState, out: Outbox)

  function Begin(s: ReplicaState): Effects
  {
    Effects(s, NOTHING)
  }

  // Pulls with a bounded local queue

  predicate UsesJbsq(c: ReplicaConfig)
  {
    c.jbsqN.Some? && c.pulls
  }

  function UpstreamQueued(queue: seq<Work>): nat
  {
    if queue == [] then 0
    else UpstreamQueued(queue[..|queue| - 1]) + if queue[|queue| - 1].Upstream? then 1 else 0
  }

  function JbsqOccupancy(s: ReplicaState): nat
  {
    UpstreamQueued(s.queue) + s.inFlight
  }

  predicate JbsqCanPull(s: ReplicaState)
  {
    s.cfg.jbsqN.Some? && JbsqOccupancy(s) + s.pendingPulls < s.cfg.jbsqN.value
  }

  function TryJbsqPull(fx: Effects): Effects
  {
    var s := fx.replica;
    if !UsesJbsq(s.cfg) || !JbsqCanPull(s) then fx
    else
      var event := PullSent(s.cfg.at, JbsqOccupancy(s), s.pendingPulls, s.cfg.jbsqN.value);
      Effects(s.(pendingPulls := s.pendingPulls + 1),
              fx.out.(pulls := fx.out.pulls + 1, audit := fx.out.audit + [event]))
  }

  /** Pulls until the local occupancy and the outstanding pulls reach `n`. */
  function TryJbsqPullUntilFull(fx: Effects): Effects
    decreases if fx.replica.cfg.jbsqN.Some? then fx.replica.cfg.jbsqN.value - fx.replica.pendingPulls else 0
  {
    if !JbsqCanPull(fx.replica) || !UsesJbsq(fx.replica.cfg) then fx
    else TryJbsqPullUntilFull(TryJbsqPull(fx))
  }

  // The local queue

  function Deadlines(queue: seq<Work>): (d: seq<nat>)
    ensures |d| == |queue| && forall i :: 0 <= i < |queue| ==> d[i] == queue[i].hop.deadline
  {
    seq(|queue|, i requires 0 <= i < |queue| => queue[i].hop.deadline)
  }

  function Enqueue(queue: seq<Work>, work: Work, edf: bool): seq<Work>
  {
    if edf then
      var i := Edf.InsertIndex(Deadlines(queue), work.hop.deadline);
      queue[..i] + [work] + queue[i..]
    else queue + [work]
  }

  /** The queue of an EDF replica is the abstract EDF queue without its arrival numbers. */
  lemma EnqueueIsEdf(q: seq<Edf.Entry<Work>>, e: Edf.Entry<Work>)
    requires forall i :: 0 <= i < |q| ==> q[i].deadline == q[i].item.hop.deadline
    requires e.deadline == e.item.hop.deadline
    ensures Items(Edf.Insert(q, e)) == Enqueue(Items(q), e.item, true)
  {
    assert Edf.Deadlines(q) == Deadlines(Items(q));
  }

  function Items(q: seq<Edf.Entry<Work>>): (w: seq<Work>)
    ensures |w| == |q| && forall i :: 0 <= i < |q| ==> w[i] == q[i].item
  {
    seq(|q|, i requires 0 <= i < |q| => q[i].item)
  }

  // Service

  function BeginService(fx: Effects, g: Graph, hop: Hop, duration: nat, now: Time): Effects
  {
    var s := fx.replica;
    if hop.endpoint in g.timed then
      fx.(out := fx.out.(begun := fx.out.begun + [Service(now + duration, s.cfg.at, hop.(duration := duration))]))
    else
      Effects(s.(inFlight := SaturatingSub(s.inFlight, 1)), fx.out.(lost := fx.out.lost + [hop]))
  }

  /** Sends a request on: to the next child, back to the caller, or out. */
  function Advance(fx: Effects, g: Graph, hop: Hop, now: Time): Effects
  {
    var kids := FilteredChildren(g.children, hop.endpoint, hop.api);
    if hop.sibling < |kids| then
      if kids[hop.sibling] in g.owner then
        fx.(out := fx.out.(calls := fx.out.calls
              + [OutboundCall(g.owner[kids[hop.sibling]], ChildHop(fx.replica.cfg.at, hop, kids[hop.sibling]))]))
      else fx.(out := fx.out.(lost := fx.out.lost + [hop]))
    else if hop.caller.Some? then
      var c := hop.caller.value;
      fx.(out := fx.out.(replies := fx.out.replies + [ReturnMsg(Address(c.microservice, c.server), ResumedHop(hop, c))]))
    else
      fx.(out := fx.out.(edgeReleases := fx.out.edgeReleases + [hop.api],
                         completed := fx.out.completed
                           + [CompletedRequest(hop.requestId, hop.api, hop.start, now, hop.processing)]))
  }

  function ChildHop(at: Address, hop: Hop, child: Endpoint): Hop
  {
    hop.(endpoint := child, sibling := 0, duration := 0, outboundRelease := None, slotRelease := None,
         caller := Some(CallerRef(at.microservice, at.server, hop.endpoint, hop.sibling + 1, hop.caller, "", 0)))
  }

  function ResumedHop(hop: Hop, c: CallerRef): Hop
  {
    hop.(endpoint := c.resumeEndpoint, sibling := c.resumeSibling, caller := c.resumeCaller,
         outboundRelease := if c.outboundTarget != "" then Some(Release(c.outboundTarget, c.outboundServer))
                            else hop.outboundRelease)
  }

  function HandleReturn(fx: Effects, g: Graph, hop: Hop, now: Time): Effects
  {
    var released := if hop.outboundRelease.Some? && hop.outboundRelease.value.target != ""
                    then fx.(out := fx.out.(releases := fx.out.releases + [hop.outboundRelease.value])) else fx;
    Advance(released, g, hop.(outboundRelease := None), now)
  }

  /** Resumes returned requests and starts at most one new service, as long as a slot is free. */
  function DrainQueue(fx: Effects, g: Graph, duration: nat, now: Time): Effects
    decreases |fx.replica.queue|
  {
    var s := fx.replica;
    if s.queue == [] || s.inFlight >= s.cfg.maxConcurrency then fx
    else
      var popped := s.(queue := s.queue[1..]);
      match s.queue[0]
      case Upstream(hop) =>
        BeginService(fx.(replica := popped.(inFlight := s.inFlight + 1)), g, hop, duration, now)
      case DownstreamReturn(hop) =>
        ResumeKeepsQueue(fx.(replica := popped), g, hop, now);
        DrainQueue(HandleReturn(fx.(replica := popped), g, hop, now), g, duration, now)
  }

  lemma ResumeKeepsQueue(fx: Effects, g: Graph, hop: Hop, now: Time)
    ensures HandleReturn(fx, g, hop, now).replica == fx.replica
  {
  }

  // Handlers. `duration` is the service time that the handler samples if it starts a service.

  function Input(s: ReplicaState, g: Graph, work: Work, duration: nat, now: Time): Effects
  {
    if work.Upstream? && work.hop.slotRelease.Some? then
      if UsesJbsq(s.cfg) then
        var event := PullArrived(s.cfg.at, UpstreamQueued(s.queue), s.inFlight, s.pendingPulls, s.cfg.jbsqN.value);
        var queued := s.(pendingPulls := SaturatingSub(s.pendingPulls, 1), queue := Enqueue(s.queue, work, s.cfg.edf));
        DrainQueue(Effects(queued, NOTHING.(audit := [event])), g, duration, now)
      else
        BeginService(Begin(s.(inFlight := s.inFlight + 1)), g, work.hop, duration, now)
    else DrainQueue(Begin(s.(queue := Enqueue(s.queue, work, s.cfg.edf))), g, duration, now)
  }

  function RequestPull(s: ReplicaState): Effects
  {
    if UsesJbsq(s.cfg) then TryJbsqPull(Begin(s))
    else if s.cfg.pulls && s.inFlight < s.cfg.maxConcurrency then Effects(s, NOTHING.(pulls := 1))
    else Begin(s)
  }

  /** The freed slot, and the releases and the pull that go with it. */
  function Freed(s: ReplicaState, hop: Hop): Effects
  {
    var freed := s.(inFlight := SaturatingSub(s.inFlight, 1));
    if hop.slotRelease.None? then Begin(freed)
    else Effects(freed, NOTHING.(releases := [hop.slotRelease.value],
                                 pulls := if !UsesJbsq(s.cfg) && s.cfg.pulls then 1 else 0))
  }

  function Served(hop: Hop): Hop
  {
    hop.(processing := hop.processing + hop.duration, slotRelease := None, sibling := 0)
  }

  function Complete(s: ReplicaState, g: Graph, hop: Hop, duration: nat, now: Time): Effects
  {
    var drained := DrainQueue(Advance(Freed(s, hop), g, Served(hop), now), g, duration, now);
    if UsesJbsq(s.cfg) then TryJbsqPullUntilFull(drained) else drained
  }

  class Replica {
    const cfg: ReplicaConfig
    const graph: Graph
    var inFlight: nat
    var pendingPulls: nat
    var queue: seq<Work>
    // Output ports, scheduled events and audit: what the current handler has sent.
    var out: Outbox

    ghost function State(): ReplicaState
      reads this
    {
      ReplicaState(cfg, inFlight, pendingPulls, queue)
    }

    ghost function Sent(): Effects
      reads this
    {
      Effects(State(), out)
    }

    constructor (cfg: ReplicaConfig, graph: Graph)
      ensures this.cfg == cfg.(maxConcurrency := Max(cfg.maxConcurrency, 1)) && this.graph == graph
      ensures Sent() == Begin(ReplicaState(this.cfg, 0, 0, []))
    {
      this.cfg := cfg.(maxConcurrency := Max(cfg.maxConcurrency, 1));
      this.graph := graph;
      inFlight, pendingPulls, queue, out := 0, 0, [], NOTHING;
    }

    method CountUpstream() returns (count: nat)
      ensures count == UpstreamQueued(queue)
    {
      count := 0;
      for i := 0 to |queue|
        invariant count == UpstreamQueued(queue[..i])
      {
        assert queue[..i + 1][..i] == queue[..i];
        if queue[i].Upstream? {
          count := count + 1;
        }
      }
      assert queue[..|queue|] == queue;
    }

    method CanPull() returns (can: bool)
      ensures can == JbsqCanPull(State())
    {
      if cfg.jbsqN.None? {
        return false;
      }
      var upstream := CountUpstream();
      can := upstream + inFlight + pendingPulls < cfg.jbsqN.value;
    }

    method SendJbsqPull()
      modifies this`pendingPulls, this`out
      ensures Sent() == TryJbsqPull(old(Sent()))
    {
      if cfg.jbsqN.None? || !cfg.pulls {
        return;
      }
      var upstream := CountUpstream();
      var occupancy := upstream + inFlight;
      if occupancy + pendingPulls >= cfg.jbsqN.value {
        return;
      }
      out := out.(audit := out.audit + [PullSent(cfg.at, occupancy, pendingPulls, cfg.jbsqN.value)]);
      pendingPulls := pendingPulls + 1;
      out := out.(pulls := out.pulls + 1);
    }

    method SendJbsqPullsUntilFull()
      modifies this`pendingPulls, this`out
      ensures Sent() == TryJbsqPullUntilFull(old(Sent()))
    {
      var can := CanPull();
      while can
        invariant can == JbsqCanPull(State())
        invariant TryJbsqPullUntilFull(Sent()) == TryJbsqPullUntilFull(old(Sent()))
        invariant queue == old(queue) && inFlight == old(inFlight)
        decreases if cfg.jbsqN.Some? then cfg.jbsqN.value - pendingPulls else 0
      {
        var before := pendingPulls;
        SendJbsqPull();
        if pendingPulls == before {
          break;
        }
        can := CanPull();
      }
    }

    method EnqueueWork(work: Work)
      modifies this`queue
      ensures queue == Enqueue(old(queue), work, cfg.edf)
    {
      if cfg.edf {
        var index := Edf.EdfInsertIndex(Deadlines(queue), work.hop.deadline);
        queue := queue[..index] + [work] + queue[index..];
      } else {
        queue := queue + [work];
      }
    }

    method StartService(hop: Hop, duration: nat, now: Time)
      modifies this`inFlight, this`out
      ensures Sent() == BeginService(old(Sent()), graph, hop, duration, now)
    {
      if hop.endpoint !in graph.timed {
        inFlight := SaturatingSub(inFlight, 1);
        out := out.(lost := out.lost + [hop]);
        return;
      }
      out := out.(begun := out.begun + [Service(now + duration, cfg.at, hop.(duration := duration))]);
    }

    method AdvanceRequest(hop: Hop, now: Time)
      modifies this`out
      ensures Sent() == Advance(old(Sent()), graph, hop, now)
    {
      var kids := FilteredChildren(graph.children, hop.endpoint, hop.api);
      if hop.sibling < |kids| {
        var child := kids[hop.sibling];
        if child !in graph.owner {
          out := out.(lost := out.lost + [hop]);
          return;
        }
        out := out.(calls := out.calls + [OutboundCall(graph.owner[child], ChildHop(cfg.at, hop, child))]);
        return;
      }
      if hop.caller.Some? {
        var c := hop.caller.value;
        out := out.(replies := out.replies + [ReturnMsg(Address(c.microservice, c.server), ResumedHop(hop, c))]);
        return;
      }
      out := out.(edgeReleases := out.edgeReleases + [hop.api]);
      out := out.(completed := out.completed
        + [CompletedRequest(hop.requestId, hop.api, hop.start, now, hop.processing)]);
    }

    method ResumeRequest(hop: Hop, now: Time)
      modifies this`out
      ensures Sent() == HandleReturn(old(Sent()), graph, hop, now)
    {
      if hop.outboundRelease.Some? && hop.outboundRelease.value.target != "" {
        out := out.(releases := out.releases + [hop.outboundRelease.value]);
      }
      AdvanceRequest(hop.(outboundRelease := None), now);
    }

    method DrainLocalQueue(duration: nat, now: Time)
      modifies this`queue, this`inFlight, this`out
      ensures Sent() == DrainQueue(old(Sent()), graph, duration, now)
    {
      while queue != [] && inFlight < cfg.maxConcurrency
        invariant DrainQueue(Sent(), graph, duration, now) == DrainQueue(old(Sent()), graph, duration, now)
        decreases |queue|
      {
        var work := queue[0];
        queue := queue[1..];
        match work {
          case Upstream(hop) =>
            inFlight := inFlight + 1;
            StartService(hop, duration, now);
            return;
          case DownstreamReturn(hop) =>
            ResumeRequest(hop, now);
        }
      }
    }

    method HandleInput(work: Work, duration: nat, now: Time)
      modifies this
      ensures Sent() == Input(old(State()), graph, work, duration, now)
    {
      out := NOTHING;
      if work.Upstream? && work.hop.slotRelease.Some? {
        if cfg.jbsqN.Some? && cfg.pulls {
          var upstream := CountUpstream();
          out := out.(audit := [PullArrived(cfg.at, upstream, inFlight, pendingPulls, cfg.jbsqN.value)]);
          pendingPulls := SaturatingSub(pendingPulls, 1);
          EnqueueWork(work);
          DrainLocalQueue(duration, now);
          return;
        }
        inFlight := inFlight + 1;
        StartService(work.hop, duration, now);
        return;
      }
      EnqueueWork(work);
      DrainLocalQueue(duration, now);
    }

    method HandleRequestPull()
      modifies this
      ensures Sent() == RequestPull(old(State()))
    {
      out := NOTHING;
      if cfg.jbsqN.Some? && cfg.pulls {
        SendJbsqPull();
        return;
      }
      if cfg.pulls && inFlight < cfg.maxConcurrency {
        out := out.(pulls := 1);
      }
    }

    method HandleComplete(hop: Hop, duration: nat, now: Time)
      modifies this
      ensures Sent() == Complete(old(State()), graph, hop, duration, now)
    {
      out := NOTHING;
      var served := hop.(processing := hop.processing + hop.duration);
      inFlight := SaturatingSub(inFlight, 1);
      if served.slotRelease.Some? {
        out := out.(releases := [served.slotRelease.value]);
        if !(cfg.jbsqN.Some? && cfg.pulls) && cfg.pulls {
          out := out.(pulls := 1);
        }
        served := served.(slotRelease := None);
      }
      served := served.(sibling := 0);
      AdvanceRequest(served, now);
      DrainLocalQueue(duration, now);
      if cfg.jbsqN.Some? && cfg.pulls {
        SendJbsqPullsUntilFull();
      }
    }
  }
}
