/** The microservice simulation as a machine: replicas, requests on their way between them, running services, and the
    pulls that replicas have outstanding. Balancers choose any replica of the microservice that a call is for. */
module CallRuns {
  import opened Domain
  import opened Sums
  import opened CallGraphs
  import opened Replicas
  import opened Traversal
  import Edf

  /** One service of one endpoint for one request. */
  datatype Visit = Visit(requestId: nat, endpoint: Endpoint, duration: nat)

  datatype Machine = Machine(
    graph: Graph, replicas: seq<ReplicaState>,
    // Requests that have not entered, calls at or on the way to a balancer, requests on the way to a replica, requests
    // on the way back to a caller, and running services.
    arrivals: seq<Hop>, calls: seq<OutboundCall>, upstreams: seq<ReturnMsg>, replies: seq<ReturnMsg>,
    running: seq<Service>,
    // Pull events still to come, and pulls that wait for a call, by replica.
    initialPulls: seq<nat>, pulls: seq<nat>,
    completed: seq<CompletedRequest>, lost: seq<Hop>, log: seq<Visit>, audit: seq<JbsqEvent>)

  datatype Step =
    | Enter(i: nat, r: nat)
    | Push(i: nat, r: nat)
    | Hand(i: nat, j: nat)
    | DeliverUpstream(i: nat, r: nat, duration: nat, now: Time)
    | DeliverReply(i: nat, r: nat, duration: nat, now: Time)
    | Finish(i: nat, r: nat, duration: nat, now: Time)
    | AskPull(i: nat)

  /** Replica `r` belongs to the microservice. */
  predicate Serves(m: Machine, r: nat, microservice: string)
  {
    r < |m.replicas| && m.replicas[r].cfg.at.microservice == microservice
  }

  predicate Enabled(m: Machine, step: Step)
  {
    match step
    case Enter(i, r) =>
      && i < |m.arrivals| && m.arrivals[i].endpoint in m.graph.owner
      && Serves(m, r, m.graph.owner[m.arrivals[i].endpoint]) && !m.replicas[r].cfg.pulls
    case Push(i, r) => i < |m.calls| && Serves(m, r, m.calls[i].target) && !m.replicas[r].cfg.pulls
    case Hand(i, j) => i < |m.calls| && j < |m.pulls| && Serves(m, m.pulls[j], m.calls[i].target)
    case DeliverUpstream(i, r, _, _) => i < |m.upstreams| && r < |m.replicas| && m.replicas[r].cfg.at == m.upstreams[i].to
    case DeliverReply(i, r, _, _) => i < |m.replies| && r < |m.replicas| && m.replicas[r].cfg.at == m.replies[i].to
    case Finish(i, r, _, _) => i < |m.running| && r < |m.replicas| && m.replicas[r].cfg.at == m.running[i].host
    case AskPull(i) => i < |m.initialPulls| && m.initialPulls[i] < |m.replicas|
  }

  function Repeat(r: nat, n: nat): (s: seq<nat>)
    ensures |s| == n && forall i :: 0 <= i < n ==> s[i] == r
  {
    seq(n, _ => r)
  }

  function AfterReplica(m: Machine, r: nat, fx: Effects): Machine
    requires r < |m.replicas|
  {
    m.(replicas := m.replicas[r := fx.replica], calls := m.calls + fx.out.calls, replies := m.replies + fx.out.replies,
       running := m.running + fx.out.begun, pulls := m.pulls + Repeat(r, fx.out.pulls),
       completed := m.completed + fx.out.completed, lost := m.lost + fx.out.lost, audit := m.audit + fx.out.audit)
  }

  /** A push balancer records where it sends a call, for the caller to release. */
  function Pushed(hop: Hop, to: Address): Hop
  {
    if hop.caller.None? then hop
    else hop.(caller := Some(hop.caller.value.(outboundTarget := to.microservice, outboundServer := to.server)))
  }

  /** A pull balancer gives the call a slot to release. */
  function Handed(hop: Hop, to: Address): Hop
  {
    hop.(slotRelease := Some(Release(to.microservice, to.server)))
  }

  function Next(m: Machine, step: Step): Machine
    requires Enabled(m, step)
  {
    match step
    case Enter(i, r) =>
      m.(arrivals := RemoveAt(m.arrivals, i), upstreams := m.upstreams + [ReturnMsg(m.replicas[r].cfg.at, m.arrivals[i])])
    case Push(i, r) =>
      var at := m.replicas[r].cfg.at;
      m.(calls := RemoveAt(m.calls, i), upstreams := m.upstreams + [ReturnMsg(at, Pushed(m.calls[i].hop, at))])
    case Hand(i, j) =>
      var at := m.replicas[m.pulls[j]].cfg.at;
      m.(calls := RemoveAt(m.calls, i), pulls := RemoveAt(m.pulls, j),
         upstreams := m.upstreams + [ReturnMsg(at, Handed(m.calls[i].hop, at))])
    case DeliverUpstream(i, r, duration, now) =>
      AfterReplica(m.(upstreams := RemoveAt(m.upstreams, i)), r,
                   Input(m.replicas[r], m.graph, Upstream(m.upstreams[i].hop), duration, now))
    case DeliverReply(i, r, duration, now) =>
      AfterReplica(m.(replies := RemoveAt(m.replies, i)), r,
                   Input(m.replicas[r], m.graph, DownstreamReturn(m.replies[i].hop), duration, now))
    case Finish(i, r, duration, now) =>
      var hop := m.running[i].hop;
      AfterReplica(m.(running := RemoveAt(m.running, i),
                      log := m.log + [Visit(hop.requestId, hop.endpoint, hop.duration)]), r,
                   Complete(m.replicas[r], m.graph, hop, duration, now))
    case AskPull(i) =>
      AfterReplica(m.(initialPulls := RemoveAt(m.initialPulls, i)), m.initialPulls[i], RequestPull(m.replicas[m.initialPulls[i]]))
  }

  // Where a request is

  /** A weight for a request, by its identifier. */
  type Weight = nat -> int

  function OfHop(f: Weight): Hop -> int { (h: Hop) => f(h.requestId) }
  function OfWork(f: Weight): Work -> int { (w: Work) => f(w.hop.requestId) }
  function OfCall(f: Weight): OutboundCall -> int { (c: OutboundCall) => f(c.hop.requestId) }
  function OfMsg(f: Weight): ReturnMsg -> int { (c: ReturnMsg) => f(c.hop.requestId) }
  function OfService(f: Weight): Service -> int { (s: Service) => f(s.hop.requestId) }
  function OfCompleted(f: Weight): CompletedRequest -> int { (c: CompletedRequest) => f(c.requestId) }
  function OfReplica(f: Weight): ReplicaState -> int { (s: ReplicaState) => Sum(s.queue, OfWork(f)) }

  ghost function Places(m: Machine, f: Weight): int
  {
    Sum(m.arrivals, OfHop(f)) + Sum(m.calls, OfCall(f)) + Sum(m.upstreams, OfMsg(f)) + Sum(m.replies, OfMsg(f))
    + Sum(m.running, OfService(f)) + Sum(m.replicas, OfReplica(f)) + Sum(m.completed, OfCompleted(f)) + Sum(m.lost, OfHop(f))
  }

  ghost function AtReplica(fx: Effects, f: Weight): int
  {
    Sum(fx.replica.queue, OfWork(f)) + Sum(fx.out.calls, OfCall(f)) + Sum(fx.out.replies, OfMsg(f))
    + Sum(fx.out.begun, OfService(f)) + Sum(fx.out.completed, OfCompleted(f)) + Sum(fx.out.lost, OfHop(f))
  }

  lemma AdvancePlaces(fx: Effects, g: Graph, hop: Hop, now: Time, f: Weight)
    ensures AtReplica(Advance(fx, g, hop, now), f) == AtReplica(fx, f) + f(hop.requestId)
    ensures Advance(fx, g, hop, now).replica == fx.replica
  {
    var r := Advance(fx, g, hop, now);
    if |r.out.calls| > |fx.out.calls| {
      SumAppend(fx.out.calls, r.out.calls[|fx.out.calls|], OfCall(f));
    } else if |r.out.replies| > |fx.out.replies| {
      SumAppend(fx.out.replies, r.out.replies[|fx.out.replies|], OfMsg(f));
    } else if |r.out.lost| > |fx.out.lost| {
      SumAppend(fx.out.lost, hop, OfHop(f));
    } else {
      SumAppend(fx.out.completed, r.out.completed[|fx.out.completed|], OfCompleted(f));
    }
  }

  lemma BeginPlaces(fx: Effects, g: Graph, hop: Hop, duration: nat, now: Time, f: Weight)
    ensures AtReplica(BeginService(fx, g, hop, duration, now), f) == AtReplica(fx, f) + f(hop.requestId)
  {
    SumAppend(fx.out.begun, Service(now + duration, fx.replica.cfg.at, hop.(duration := duration)), OfService(f));
    SumAppend(fx.out.lost, hop, OfHop(f));
  }

  lemma ResumePlaces(fx: Effects, g: Graph, hop: Hop, now: Time, f: Weight)
    ensures AtReplica(HandleReturn(fx, g, hop, now), f) == AtReplica(fx, f) + f(hop.requestId)
  {
    var released := if hop.outboundRelease.Some? && hop.outboundRelease.value.target != ""
                    then fx.(out := fx.out.(releases := fx.out.releases + [hop.outboundRelease.value])) else fx;
    AdvancePlaces(released, g, hop.(outboundRelease := None), now, f);
  }

  lemma {:induction false} DrainPlaces(fx: Effects, g: Graph, duration: nat, now: Time, f: Weight)
    ensures AtReplica(DrainQueue(fx, g, duration, now), f) == AtReplica(fx, f)
    decreases |fx.replica.queue|
  {
    var s := fx.replica;
    if s.queue != [] && s.inFlight < s.cfg.maxConcurrency {
      SumRemove(s.queue, 0, OfWork(f));
      assert RemoveAt(s.queue, 0) == s.queue[1..];
      var popped := s.(queue := s.queue[1..]);
      match s.queue[0]
      case Upstream(hop) =>
        BeginPlaces(fx.(replica := popped.(inFlight := s.inFlight + 1)), g, hop, duration, now, f);
      case DownstreamReturn(hop) =>
        ResumePlaces(fx.(replica := popped), g, hop, now, f);
        DrainPlaces(HandleReturn(fx.(replica := popped), g, hop, now), g, duration, now, f);
    }
  }

  lemma SumEnqueue(queue: seq<Work>, work: Work, edf: bool, f: Work -> int)
    ensures Sum(Enqueue(queue, work, edf), f) == Sum(queue, f) + f(work)
  {
    if edf {
      SumInsert(queue, work, Edf.InsertIndex(Deadlines(queue), work.hop.deadline), f);
    } else {
      SumAppend(queue, work, f);
    }
  }

  /** A request that comes to a replica is queued, started, or sent on: once. */
  lemma InputPlaces(s: ReplicaState, g: Graph, work: Work, duration: nat, now: Time, f: Weight)
    ensures AtReplica(Input(s, g, work, duration, now), f) == Sum(s.queue, OfWork(f)) + f(work.hop.requestId)
  {
    SumEnqueue(s.queue, work, s.cfg.edf, OfWork(f));
    if work.Upstream? && work.hop.slotRelease.Some? {
      if UsesJbsq(s.cfg) {
        var event := PullArrived(s.cfg.at, UpstreamQueued(s.queue), s.inFlight, s.pendingPulls, s.cfg.jbsqN.value);
        var queued := s.(pendingPulls := SaturatingSub(s.pendingPulls, 1), queue := Enqueue(s.queue, work, s.cfg.edf));
        DrainPlaces(Effects(queued, NOTHING.(audit := [event])), g, duration, now, f);
      } else {
        BeginPlaces(Begin(s.(inFlight := s.inFlight + 1)), g, work.hop, duration, now, f);
      }
    } else {
      DrainPlaces(Begin(s.(queue := Enqueue(s.queue, work, s.cfg.edf))), g, duration, now, f);
    }
  }

  lemma {:induction false} RefillSendsOnlyPulls(fx: Effects)
    ensures var r := TryJbsqPullUntilFull(fx);
            && r.replica == fx.replica.(pendingPulls := r.replica.pendingPulls)
            && r.out == fx.out.(pulls := r.out.pulls, audit := r.out.audit)
    decreases if fx.replica.cfg.jbsqN.Some? then fx.replica.cfg.jbsqN.value - fx.replica.pendingPulls else 0
  {
    if JbsqCanPull(fx.replica) && UsesJbsq(fx.replica.cfg) {
      RefillSendsOnlyPulls(TryJbsqPull(fx));
    }
  }

  lemma CompletePlaces(s: ReplicaState, g: Graph, hop: Hop, duration: nat, now: Time, f: Weight)
    ensures AtReplica(Complete(s, g, hop, duration, now), f) == Sum(s.queue, OfWork(f)) + f(hop.requestId)
  {
    AdvancePlaces(Freed(s, hop), g, Served(hop), now, f);
    var advanced := Advance(Freed(s, hop), g, Served(hop), now);
    DrainPlaces(advanced, g, duration, now, f);
    RefillSendsOnlyPulls(DrainQueue(advanced, g, duration, now));
  }

  lemma PlacesAfterReplica(m: Machine, r: nat, fx: Effects, f: Weight)
    requires r < |m.replicas|
    ensures Places(AfterReplica(m, r, fx), f) == Places(m, f) - Sum(m.replicas[r].queue, OfWork(f)) + AtReplica(fx, f)
  {
    SumUpdate(m.replicas, r, fx.replica, OfReplica(f));
    SumConcat(m.calls, fx.out.calls, OfCall(f));
    SumConcat(m.replies, fx.out.replies, OfMsg(f));
    SumConcat(m.running, fx.out.begun, OfService(f));
    SumConcat(m.completed, fx.out.completed, OfCompleted(f));
    SumConcat(m.lost, fx.out.lost, OfHop(f));
  }

  lemma RoutingKeepsPlaces(m: Machine, step: Step, f: Weight)
    requires Enabled(m, step) && (step.Enter? || step.Push? || step.Hand?)
    ensures Places(Next(m, step), f) == Places(m, f)
  {
    match step
    case Enter(i, r) =>
      SumRemove(m.arrivals, i, OfHop(f));
      SumAppend(m.upstreams, ReturnMsg(m.replicas[r].cfg.at, m.arrivals[i]), OfMsg(f));
    case Push(i, r) =>
      SumRemove(m.calls, i, OfCall(f));
      SumAppend(m.upstreams, ReturnMsg(m.replicas[r].cfg.at, Pushed(m.calls[i].hop, m.replicas[r].cfg.at)), OfMsg(f));
    case Hand(i, j) =>
      SumRemove(m.calls, i, OfCall(f));
      var at := m.replicas[m.pulls[j]].cfg.at;
      SumAppend(m.upstreams, ReturnMsg(at, Handed(m.calls[i].hop, at)), OfMsg(f));
  }

  lemma FinishKeepsPlaces(m: Machine, step: Step, f: Weight)
    requires Enabled(m, step) && step.Finish?
    ensures Places(Next(m, step), f) == Places(m, f)
  {
    var Finish(i, r, duration, now) := step;
    SumRemove(m.running, i, OfService(f));
    var hop := m.running[i].hop;
    CompletePlaces(m.replicas[r], m.graph, hop, duration, now, f);
    PlacesAfterReplica(m.(running := RemoveAt(m.running, i),
                          log := m.log + [Visit(hop.requestId, hop.endpoint, hop.duration)]), r,
                       Complete(m.replicas[r], m.graph, hop, duration, now), f);
  }

  lemma DeliveryKeepsPlaces(m: Machine, step: Step, f: Weight)
    requires Enabled(m, step) && (step.DeliverUpstream? || step.DeliverReply?)
    ensures Places(Next(m, step), f) == Places(m, f)
  {
    match step
    case DeliverUpstream(i, r, duration, now) =>
      SumRemove(m.upstreams, i, OfMsg(f));
      InputPlaces(m.replicas[r], m.graph, Upstream(m.upstreams[i].hop), duration, now, f);
      PlacesAfterReplica(m.(upstreams := RemoveAt(m.upstreams, i)), r,
                         Input(m.replicas[r], m.graph, Upstream(m.upstreams[i].hop), duration, now), f);
    case DeliverReply(i, r, duration, now) =>
      SumRemove(m.replies, i, OfMsg(f));
      InputPlaces(m.replicas[r], m.graph, DownstreamReturn(m.replies[i].hop), duration, now, f);
      PlacesAfterReplica(m.(replies := RemoveAt(m.replies, i)), r,
                         Input(m.replicas[r], m.graph, DownstreamReturn(m.replies[i].hop), duration, now), f);
  }

  /** Every step keeps every request in exactly as many places as before. */
  lemma NextKeepsPlaces(m: Machine, step: Step, f: Weight)
    requires Enabled(m, step)
    ensures Places(Next(m, step), f) == Places(m, f)
  {
    match step
    case Enter(_, _) => RoutingKeepsPlaces(m, step, f);
    case Push(_, _) => RoutingKeepsPlaces(m, step, f);
    case Hand(_, _) => RoutingKeepsPlaces(m, step, f);
    case DeliverUpstream(_, _, _, _) => DeliveryKeepsPlaces(m, step, f);
    case DeliverReply(_, _, _, _) => DeliveryKeepsPlaces(m, step, f);
    case Finish(_, _, _, _) => FinishKeepsPlaces(m, step, f);
    case AskPull(i) =>
      PlacesAfterReplica(m.(initialPulls := RemoveAt(m.initialPulls, i)), m.initialPulls[i],
                         RequestPull(m.replicas[m.initialPulls[i]]), f);
  }
}
