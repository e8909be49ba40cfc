/** What the microservice machine computes: every request serves exactly the endpoints of its API's call tree, parents
    before children and children in order, and is then completed once, with the sum of its service times. */
module CallTrees {
  import opened Domain
  import opened Sums
  import opened CallGraphs
  import opened Replicas
  import opened Traversal
  import opened CallRuns

  /** The endpoints that a request has been served at, in order. */
  function ServedBy(log: seq<Visit>, id: nat): seq<Endpoint>
  {
    if log == [] then []
    else
      var last := log[|log| - 1];
      ServedBy(log[..|log| - 1], id) + if last.requestId == id then [last.endpoint] else []
  }

  function TimeOf(log: seq<Visit>, id: nat): nat
  {
    if log == [] then 0
    else
      var last := log[|log| - 1];
      TimeOf(log[..|log| - 1], id) + if last.requestId == id then last.duration else 0
  }

  ghost function Plan(p: Spec, api: string): seq<Endpoint>
    requires Checked(p) && api in p.entry
  {
    Preorder(p.children, api, p.entry[api], p.all)
  }

  /** A request on its way to a service. */
  ghost predicate Early(p: Spec, g: Graph, log: seq<Visit>, hop: Hop)
  {
    && HopOk(p, hop) && hop.endpoint in g.owner
    && ServedBy(log, hop.requestId) + Ahead(p, hop) == Plan(p, hop.api)
    && hop.processing == TimeOf(log, hop.requestId)
  }

  /** A request between services. */
  ghost predicate Late(p: Spec, log: seq<Visit>, hop: Hop)
  {
    && HopOk(p, hop)
    && ServedBy(log, hop.requestId) + Remaining(p, hop) == Plan(p, hop.api)
    && hop.processing == TimeOf(log, hop.requestId)
  }

  ghost predicate WorkOk(p: Spec, g: Graph, log: seq<Visit>, w: Work)
  {
    if w.Upstream? then Early(p, g, log, w.hop) else Late(p, log, w.hop)
  }

  /** A completed request has been served at its whole call tree, and carries the sum of its service times. */
  ghost predicate Done(p: Spec, g: Graph, log: seq<Visit>, c: CompletedRequest)
  {
    && Checked(p) && c.api in p.entry && ServedBy(log, c.requestId) == Plan(p, c.api)
    && c.processing == TimeOf(log, c.requestId)
  }

  /** A request is lost where its call tree leads to an endpoint that no microservice has. */
  ghost predicate Lost(p: Spec, g: Graph, hop: Hop)
  {
    Checked(p) && hop.api in p.entry && exists e :: e in Plan(p, hop.api) && e !in g.owner
  }

  // Handlers, against a fixed log

  ghost predicate QueueOk(p: Spec, g: Graph, log: seq<Visit>, queue: seq<Work>)
  {
    forall i :: 0 <= i < |queue| ==> WorkOk(p, g, log, queue[i])
  }

  ghost predicate OutOk(p: Spec, g: Graph, log: seq<Visit>, out: Outbox)
  {
    && (forall i :: 0 <= i < |out.calls| ==> Early(p, g, log, out.calls[i].hop))
    && (forall i :: 0 <= i < |out.replies| ==> Late(p, log, out.replies[i].hop))
    && (forall i :: 0 <= i < |out.begun| ==> Early(p, g, log, out.begun[i].hop))
    && (forall i :: 0 <= i < |out.completed| ==> Done(p, g, log, out.completed[i]))
    && (forall i :: 0 <= i < |out.lost| ==> Lost(p, g, out.lost[i]))
  }

  ghost predicate EffectsOk(p: Spec, g: Graph, log: seq<Visit>, fx: Effects)
  {
    QueueOk(p, g, log, fx.replica.queue) && OutOk(p, g, log, fx.out)
  }

  /** Endpoints with a service time are the endpoints that some microservice has. */
  ghost predicate GraphOk(p: Spec, g: Graph)
  {
    Checked(p) && g.children == p.children && (forall e :: e in g.timed <==> e in g.owner)
  }

  lemma {:induction false} InPlan(a: seq<Endpoint>, b: seq<Endpoint>, plan: seq<Endpoint>, e: Endpoint)
    requires a + b == plan && e in b
    ensures e in plan
  {
    var i :| 0 <= i < |b| && b[i] == e;
    assert plan[|a| + i] == e;
  }

  lemma AdvanceOk(p: Spec, g: Graph, log: seq<Visit>, fx: Effects, hop: Hop, now: Time)
    requires GraphOk(p, g) && EffectsOk(p, g, log, fx) && Late(p, log, hop)
    ensures EffectsOk(p, g, log, Advance(fx, g, hop, now))
  {
    var kids := FilteredChildren(g.children, hop.endpoint, hop.api);
    if hop.sibling < |kids| {
      CallKeepsList(p, fx.replica.cfg.at, hop);
      var child := ChildHop(fx.replica.cfg.at, hop, kids[hop.sibling]);
      if kids[hop.sibling] in g.owner {
        assert Early(p, g, log, child);
      } else {
        PreorderUnfolds(p.children, hop.api, child.endpoint, p.all);
        assert Ahead(p, child)[0] == child.endpoint;
        InPlan(ServedBy(log, hop.requestId), Remaining(p, hop), Plan(p, hop.api), child.endpoint);
        assert Lost(p, g, hop);
      }
    } else if hop.caller.Some? {
      ReturnKeepsList(p, hop);
      assert Late(p, log, ResumedHop(hop, hop.caller.value));
    } else {
      LeavingIsDone(p, hop);
      assert ServedBy(log, hop.requestId) + [] == ServedBy(log, hop.requestId);
      assert Done(p, g, log, CompletedRequest(hop.requestId, hop.api, hop.start, now, hop.processing));
    }
  }

  lemma BeginOk(p: Spec, g: Graph, log: seq<Visit>, fx: Effects, hop: Hop, duration: nat, now: Time)
    requires GraphOk(p, g) && EffectsOk(p, g, log, fx) && Early(p, g, log, hop)
    ensures EffectsOk(p, g, log, BeginService(fx, g, hop, duration, now))
  {
    assert Early(p, g, log, hop.(duration := duration));
  }

  lemma ResumeOk(p: Spec, g: Graph, log: seq<Visit>, fx: Effects, hop: Hop, now: Time)
    requires GraphOk(p, g) && EffectsOk(p, g, log, fx) && Late(p, log, hop)
    ensures EffectsOk(p, g, log, HandleReturn(fx, g, hop, now))
  {
    var released := if hop.outboundRelease.Some? && hop.outboundRelease.value.target != ""
                    then fx.(out := fx.out.(releases := fx.out.releases + [hop.outboundRelease.value])) else fx;
    assert Late(p, log, hop.(outboundRelease := None));
    AdvanceOk(p, g, log, released, hop.(outboundRelease := None), now);
  }

  lemma {:induction false} DrainOk(p: Spec, g: Graph, log: seq<Visit>, fx: Effects, duration: nat, now: Time)
    requires GraphOk(p, g) && EffectsOk(p, g, log, fx)
    ensures EffectsOk(p, g, log, DrainQueue(fx, g, duration, now))
    decreases |fx.replica.queue|
  {
    var s := fx.replica;
    if s.queue != [] && s.inFlight < s.cfg.maxConcurrency {
      var popped := s.(queue := s.queue[1..]);
      assert WorkOk(p, g, log, s.queue[0]);
      match s.queue[0]
      case Upstream(hop) => BeginOk(p, g, log, fx.(replica := popped.(inFlight := s.inFlight + 1)), hop, duration, now);
      case DownstreamReturn(hop) =>
        ResumeOk(p, g, log, fx.(replica := popped), hop, now);
        ResumeKeepsQueue(fx.(replica := popped), g, hop, now);
        DrainOk(p, g, log, HandleReturn(fx.(replica := popped), g, hop, now), duration, now);
    }
  }

  lemma EnqueueOk(p: Spec, g: Graph, log: seq<Visit>, queue: seq<Work>, work: Work, edf: bool)
    requires QueueOk(p, g, log, queue) && WorkOk(p, g, log, work)
    ensures QueueOk(p, g, log, Enqueue(queue, work, edf))
  {
  }

  lemma InputOk(p: Spec, g: Graph, log: seq<Visit>, s: ReplicaState, work: Work, duration: nat, now: Time)
    requires GraphOk(p, g) && QueueOk(p, g, log, s.queue) && WorkOk(p, g, log, work)
    ensures EffectsOk(p, g, log, Input(s, g, work, duration, now))
  {
    EnqueueOk(p, g, log, s.queue, work, s.cfg.edf);
    if work.Upstream? && work.hop.slotRelease.Some? {
      if UsesJbsq(s.cfg) {
        var event := PullArrived(s.cfg.at, UpstreamQueued(s.queue), s.inFlight, s.pendingPulls, s.cfg.jbsqN.value);
        var queued := s.(pendingPulls := SaturatingSub(s.pendingPulls, 1), queue := Enqueue(s.queue, work, s.cfg.edf));
        DrainOk(p, g, log, Effects(queued, NOTHING.(audit := [event])), duration, now);
      } else {
        BeginOk(p, g, log, Begin(s.(inFlight := s.inFlight + 1)), work.hop, duration, now);
      }
    } else {
      DrainOk(p, g, log, Begin(s.(queue := Enqueue(s.queue, work, s.cfg.edf))), duration, now);
    }
  }

  lemma CompleteOk(p: Spec, g: Graph, log: seq<Visit>, s: ReplicaState, hop: Hop, duration: nat, now: Time)
    requires GraphOk(p, g) && QueueOk(p, g, log, s.queue) && Late(p, log, Served(hop))
    ensures EffectsOk(p, g, log, Complete(s, g, hop, duration, now))
  {
    AdvanceOk(p, g, log, Freed(s, hop), Served(hop), now);
    var advanced := Advance(Freed(s, hop), g, Served(hop), now);
    DrainOk(p, g, log, advanced, duration, now);
    RefillSendsOnlyPulls(DrainQueue(advanced, g, duration, now));
  }

  // The machine

  ghost predicate ArrivalOk(p: Spec, log: seq<Visit>, hop: Hop)
  {
    && Checked(p) && hop.api in p.entry && hop.endpoint == p.entry[hop.api] && hop.caller.None?
    && ServedBy(log, hop.requestId) == [] && hop.processing == TimeOf(log, hop.requestId) == 0
  }

  /** Every request, wherever it is, has been served at the part of its plan that it does not have before it. */
  ghost predicate OnPlan(p: Spec, m: Machine)
  {
    && GraphOk(p, m.graph)
    && (forall i :: 0 <= i < |m.arrivals| ==> ArrivalOk(p, m.log, m.arrivals[i]))
    && (forall i :: 0 <= i < |m.upstreams| ==> Early(p, m.graph, m.log, m.upstreams[i].hop))
    && (forall r :: 0 <= r < |m.replicas| ==> QueueOk(p, m.graph, m.log, m.replicas[r].queue))
    && (forall i :: 0 <= i < |m.log| ==> m.log[i].endpoint in m.graph.owner)
    && ChannelsOk(p, m.graph, m.log, m)
  }

  ghost predicate ChannelsOk(p: Spec, g: Graph, log: seq<Visit>, m: Machine)
  {
    && (forall i :: 0 <= i < |m.calls| ==> Early(p, g, log, m.calls[i].hop))
    && (forall i :: 0 <= i < |m.replies| ==> Late(p, log, m.replies[i].hop))
    && (forall i :: 0 <= i < |m.running| ==> Early(p, g, log, m.running[i].hop))
    && (forall i :: 0 <= i < |m.completed| ==> Done(p, g, log, m.completed[i]))
    && (forall i :: 0 <= i < |m.lost| ==> Lost(p, g, m.lost[i]))
  }

  lemma ReplicaOnPlan(p: Spec, m: Machine, r: nat, fx: Effects)
    requires OnPlan(p, m) && r < |m.replicas| && EffectsOk(p, m.graph, m.log, fx)
    ensures OnPlan(p, AfterReplica(m, r, fx))
  {
  }

  function Only(id: nat): Weight
  {
    (x: nat) => if x == id then 1 else 0
  }

  /** No request is in two places. */
  ghost predicate Unique(m: Machine)
  {
    forall id: nat :: Places(m, Only(id)) <= 1
  }

  /** A request that has been taken out of its one place is nowhere else. */
  ghost predicate Absent(m: Machine, id: nat)
  {
    && (forall i :: 0 <= i < |m.arrivals| ==> m.arrivals[i].requestId != id)
    && (forall i :: 0 <= i < |m.calls| ==> m.calls[i].hop.requestId != id)
    && (forall i :: 0 <= i < |m.upstreams| ==> m.upstreams[i].hop.requestId != id)
    && (forall i :: 0 <= i < |m.replies| ==> m.replies[i].hop.requestId != id)
    && (forall i :: 0 <= i < |m.running| ==> m.running[i].hop.requestId != id)
    && (forall r, i :: 0 <= r < |m.replicas| && 0 <= i < |m.replicas[r].queue| ==> m.replicas[r].queue[i].hop.requestId != id)
    && (forall i :: 0 <= i < |m.completed| ==> m.completed[i].requestId != id)
  }

  lemma NowhereElse(m: Machine, id: nat)
    requires Places(m, Only(id)) <= 0
    ensures Absent(m, id)
  {
    var f := Only(id);
    SumNonNegative(m.arrivals, OfHop(f));
    SumNonNegative(m.calls, OfCall(f));
    SumNonNegative(m.upstreams, OfMsg(f));
    SumNonNegative(m.replies, OfMsg(f));
    SumNonNegative(m.running, OfService(f));
    assert NonNegative(OfReplica(f)) by {
      forall s ensures OfReplica(f)(s) >= 0 { SumNonNegative(s.queue, OfWork(f)); }
    }
    SumNonNegative(m.replicas, OfReplica(f));
    SumNonNegative(m.completed, OfCompleted(f));
    SumNonNegative(m.lost, OfHop(f));
    forall i: nat | i < |m.arrivals| ensures m.arrivals[i].requestId != id { SumAtLeast(m.arrivals, i, OfHop(f)); }
    forall i: nat | i < |m.calls| ensures m.calls[i].hop.requestId != id { SumAtLeast(m.calls, i, OfCall(f)); }
    forall i: nat | i < |m.upstreams| ensures m.upstreams[i].hop.requestId != id { SumAtLeast(m.upstreams, i, OfMsg(f)); }
    forall i: nat | i < |m.replies| ensures m.replies[i].hop.requestId != id { SumAtLeast(m.replies, i, OfMsg(f)); }
    forall i: nat | i < |m.running| ensures m.running[i].hop.requestId != id { SumAtLeast(m.running, i, OfService(f)); }
    forall r: nat, i: nat | r < |m.replicas| && i < |m.replicas[r].queue| ensures m.replicas[r].queue[i].hop.requestId != id {
      SumAtLeast(m.replicas, r, OfReplica(f));
      SumAtLeast(m.replicas[r].queue, i, OfWork(f));
    }
    forall i: nat | i < |m.completed| ensures m.completed[i].requestId != id { SumAtLeast(m.completed, i, OfCompleted(f)); }
  }

  /** Serving one request does not concern the others. */
  lemma OthersOnPlan(p: Spec, m: Machine, v: Visit)
    requires OnPlan(p, m) && Absent(m, v.requestId) && v.endpoint in m.graph.owner
    ensures OnPlan(p, m.(log := m.log + [v]))
  {
    assert (m.log + [v])[..|m.log|] == m.log;
    forall id: nat | id != v.requestId
      ensures ServedBy(m.log + [v], id) == ServedBy(m.log, id) && TimeOf(m.log + [v], id) == TimeOf(m.log, id)
    {
      assert ServedBy(m.log, id) + [] == ServedBy(m.log, id);
    }
  }

  lemma ServedOnPlan(p: Spec, g: Graph, log: seq<Visit>, hop: Hop)
    requires Early(p, g, log, hop)
    ensures Late(p, log + [Visit(hop.requestId, hop.endpoint, hop.duration)], Served(hop))
  {
    var v := Visit(hop.requestId, hop.endpoint, hop.duration);
    assert (log + [v])[..|log|] == log;
    ServingTakesHead(p, hop);
    var served := ServedBy(log, hop.requestId);
    assert served + ([hop.endpoint] + Remaining(p, Served(hop))) == (served + [hop.endpoint]) + Remaining(p, Served(hop));
  }

  function VisitOf(hop: Hop): Visit
  {
    Visit(hop.requestId, hop.endpoint, hop.duration)
  }

  lemma EndedAbsent(m: Machine, i: nat)
    requires Unique(m) && i < |m.running|
    ensures Absent(m.(running := RemoveAt(m.running, i)), m.running[i].hop.requestId)
  {
    var id := m.running[i].hop.requestId;
    SumRemove(m.running, i, OfService(Only(id)));
    assert Places(m, Only(id)) <= 1;
    NowhereElse(m.(running := RemoveAt(m.running, i)), id);
  }

  lemma WithoutService(p: Spec, m: Machine, i: nat)
    requires OnPlan(p, m) && i < |m.running|
    ensures OnPlan(p, m.(running := RemoveAt(m.running, i)))
  {
  }

  /** A service ends: its request leaves the machine for a moment, and the others stay on plan. */
  lemma EndedOnPlan(p: Spec, m: Machine, i: nat)
    requires OnPlan(p, m) && Unique(m) && i < |m.running|
    ensures OnPlan(p, m.(running := RemoveAt(m.running, i), log := m.log + [VisitOf(m.running[i].hop)]))
  {
    EndedAbsent(m, i);
    WithoutService(p, m, i);
    OthersOnPlan(p, m.(running := RemoveAt(m.running, i)), VisitOf(m.running[i].hop));
  }

  lemma FinishOnPlan(p: Spec, m: Machine, step: Step)
    requires OnPlan(p, m) && Unique(m) && Enabled(m, step) && step.Finish?
    ensures OnPlan(p, Next(m, step))
  {
    var Finish(i, r, duration, now) := step;
    var hop := m.running[i].hop;
    var m0 := m.(running := RemoveAt(m.running, i), log := m.log + [VisitOf(hop)]);
    assert Early(p, m.graph, m.log, hop);
    ServedOnPlan(p, m.graph, m.log, hop);
    EndedOnPlan(p, m, i);
    CompleteOk(p, m0.graph, m0.log, m0.replicas[r], hop, duration, now);
    ReplicaOnPlan(p, m0, r, Complete(m0.replicas[r], m0.graph, hop, duration, now));
  }

  lemma SameJourney(p: Spec, hop: Hop, other: Hop)
    requires HopOk(p, hop) && other.api == hop.api && other.endpoint == hop.endpoint
    requires other.caller == hop.caller || (hop.caller.Some? && other.caller.Some?
               && other.caller.value.resumeEndpoint == hop.caller.value.resumeEndpoint
               && other.caller.value.resumeSibling == hop.caller.value.resumeSibling
               && other.caller.value.resumeCaller == hop.caller.value.resumeCaller)
    ensures HopOk(p, other) && Ahead(p, other) == Ahead(p, hop)
  {
  }

  lemma RoutingOnPlan(p: Spec, m: Machine, step: Step)
    requires OnPlan(p, m) && Enabled(m, step) && (step.Enter? || step.Push? || step.Hand?)
    ensures OnPlan(p, Next(m, step))
  {
    match step
    case Enter(i, r) =>
      EnteringHasAll(p, m.arrivals[i]);
      assert [] + Ahead(p, m.arrivals[i]) == Ahead(p, m.arrivals[i]);
      assert Early(p, m.graph, m.log, m.arrivals[i]);
    case Push(i, r) =>
      SameJourney(p, m.calls[i].hop, Pushed(m.calls[i].hop, m.replicas[r].cfg.at));
      assert Early(p, m.graph, m.log, Pushed(m.calls[i].hop, m.replicas[r].cfg.at));
    case Hand(i, j) =>
      SameJourney(p, m.calls[i].hop, Handed(m.calls[i].hop, m.replicas[m.pulls[j]].cfg.at));
      assert Early(p, m.graph, m.log, Handed(m.calls[i].hop, m.replicas[m.pulls[j]].cfg.at));
  }

  lemma DeliveryOnPlan(p: Spec, m: Machine, step: Step)
    requires OnPlan(p, m) && Enabled(m, step) && (step.DeliverUpstream? || step.DeliverReply?)
    ensures OnPlan(p, Next(m, step))
  {
    match step
    case DeliverUpstream(i, r, duration, now) =>
      InputOk(p, m.graph, m.log, m.replicas[r], Upstream(m.upstreams[i].hop), duration, now);
      ReplicaOnPlan(p, m.(upstreams := RemoveAt(m.upstreams, i)), r,
                    Input(m.replicas[r], m.graph, Upstream(m.upstreams[i].hop), duration, now));
    case DeliverReply(i, r, duration, now) =>
      InputOk(p, m.graph, m.log, m.replicas[r], DownstreamReturn(m.replies[i].hop), duration, now);
      ReplicaOnPlan(p, m.(replies := RemoveAt(m.replies, i)), r,
                    Input(m.replicas[r], m.graph, DownstreamReturn(m.replies[i].hop), duration, now));
  }

  lemma NextOnPlan(p: Spec, m: Machine, step: Step)
    requires OnPlan(p, m) && Unique(m) && Enabled(m, step)
    ensures OnPlan(p, Next(m, step)) && Unique(Next(m, step))
  {
    match step {
      case Finish(_, _, _, _) => FinishOnPlan(p, m, step);
      case DeliverUpstream(_, _, _, _) => DeliveryOnPlan(p, m, step);
      case DeliverReply(_, _, _, _) => DeliveryOnPlan(p, m, step);
      case AskPull(i) =>
        ReplicaOnPlan(p, m.(initialPulls := RemoveAt(m.initialPulls, i)), m.initialPulls[i],
                      RequestPull(m.replicas[m.initialPulls[i]]));
      case _ => RoutingOnPlan(p, m, step);
    }
    forall id: nat ensures Places(Next(m, step), Only(id)) <= 1 {
      NextKeepsPlaces(m, step, Only(id));
      assert Places(m, Only(id)) <= 1;
    }
  }

  // Whole runs

  /** Empty replicas, and requests with distinct identifiers waiting at the entry points of a checked call graph. */
  ghost predicate Initial(p: Spec, m: Machine)
  {
    && GraphOk(p, m.graph) && m.log == [] && m.completed == [] && m.lost == [] && m.audit == []
    && m.calls == [] && m.upstreams == [] && m.replies == [] && m.running == [] && m.pulls == []
    && (forall r :: 0 <= r < |m.replicas| ==> m.replicas[r].queue == [] && m.replicas[r].inFlight == 0
                                              && m.replicas[r].pendingPulls == 0 && m.replicas[r].cfg.maxConcurrency >= 1)
    && (forall r, q :: 0 <= r < q < |m.replicas| ==> m.replicas[r].cfg.at != m.replicas[q].cfg.at)
    && (forall i :: 0 <= i < |m.arrivals| ==> ArrivalOk(p, [], m.arrivals[i]))
    && (forall i, j :: 0 <= i < j < |m.arrivals| ==> m.arrivals[i].requestId != m.arrivals[j].requestId)
  }

  ghost predicate Run(p: Spec, states: seq<Machine>, steps: seq<Step>)
  {
    && |states| == |steps| + 1 && Initial(p, states[0])
    && forall i :: 0 <= i < |steps| ==> Enabled(states[i], steps[i]) && states[i + 1] == Next(states[i], steps[i])
  }

  ghost function Final(states: seq<Machine>): Machine
    requires states != []
  {
    states[|states| - 1]
  }

  lemma RunPrefix(p: Spec, states: seq<Machine>, steps: seq<Step>)
    requires Run(p, states, steps) && steps != []
    ensures Run(p, states[..|steps|], steps[..|steps| - 1])
    ensures Enabled(Final(states[..|steps|]), steps[|steps| - 1])
    ensures Final(states) == Next(Final(states[..|steps|]), steps[|steps| - 1])
  {
  }

  lemma {:induction false} DistinctOnce(hops: seq<Hop>, id: nat)
    requires forall i, j :: 0 <= i < j < |hops| ==> hops[i].requestId != hops[j].requestId
    ensures Sum(hops, OfHop(Only(id))) == if exists i :: 0 <= i < |hops| && hops[i].requestId == id then 1 else 0
  {
    if hops != [] {
      DistinctOnce(hops[..|hops| - 1], id);
      assert forall i :: 0 <= i < |hops| - 1 ==> hops[..|hops| - 1][i] == hops[i];
    }
  }

  lemma InitialPlaces(p: Spec, m: Machine, f: Weight)
    requires Initial(p, m)
    ensures Places(m, f) == Sum(m.arrivals, OfHop(f))
  {
    SumZero(m.replicas, OfReplica(f));
  }

  lemma {:induction false} EveryRunOnPlan(p: Spec, states: seq<Machine>, steps: seq<Step>)
    requires Run(p, states, steps)
    ensures OnPlan(p, Final(states)) && Unique(Final(states))
    decreases |steps|
  {
    if steps == [] {
      forall id: nat ensures Places(states[0], Only(id)) <= 1 {
        InitialPlaces(p, states[0], Only(id));
        DistinctOnce(states[0].arrivals, id);
      }
    } else {
      RunPrefix(p, states, steps);
      EveryRunOnPlan(p, states[..|steps|], steps[..|steps| - 1]);
      NextOnPlan(p, Final(states[..|steps|]), steps[|steps| - 1]);
    }
  }

  /** A request is in exactly one place at any time: on its way, queued, being served, completed, or lost. */
  lemma {:induction false} ExactlyOnePlace(p: Spec, states: seq<Machine>, steps: seq<Step>, i: nat)
    requires Run(p, states, steps) && i < |states[0].arrivals|
    ensures Places(Final(states), Only(states[0].arrivals[i].requestId)) == 1
    decreases |steps|
  {
    var id := states[0].arrivals[i].requestId;
    if steps == [] {
      InitialPlaces(p, states[0], Only(id));
      DistinctOnce(states[0].arrivals, id);
    } else {
      RunPrefix(p, states, steps);
      ExactlyOnePlace(p, states[..|steps|], steps[..|steps| - 1], i);
      NextKeepsPlaces(Final(states[..|steps|]), steps[|steps| - 1], Only(id));
    }
  }

  /** Where no request is in two places, none has completed twice. */
  lemma CompletedAtMostOnce(m: Machine, k: nat)
    requires Unique(m) && k < |m.completed|
    ensures forall j :: 0 <= j < |m.completed| && j != k ==> m.completed[j].requestId != m.completed[k].requestId
  {
    var c := m.completed[k];
    assert Places(m, Only(c.requestId)) <= 1;
    SumRemove(m.completed, k, OfCompleted(Only(c.requestId)));
    var m0 := m.(completed := RemoveAt(m.completed, k));
    NowhereElse(m0, c.requestId);
    forall j | 0 <= j < |m.completed| && j != k ensures m.completed[j].requestId != c.requestId {
      assert m.completed[j] == m0.completed[if j < k then j else j - 1];
    }
  }

  /** The machine realises the recursive traversal: a completed request has been served at exactly the endpoints of its
      API's call tree, in preorder, for the processing time that it reports. And no request completes twice. */
  lemma CompletedMeansTraversed(p: Spec, states: seq<Machine>, steps: seq<Step>, k: nat)
    requires Run(p, states, steps) && k < |Final(states).completed|
    ensures var m := Final(states);
            var c := m.completed[k];
            && c.api in p.entry && ServedBy(m.log, c.requestId) == Plan(p, c.api)
            && c.processing == TimeOf(m.log, c.requestId)
            && (forall j :: 0 <= j < |m.completed| && j != k ==> m.completed[j].requestId != c.requestId)
  {
    EveryRunOnPlan(p, states, steps);
    var m := Final(states);
    assert Done(p, m.graph, m.log, m.completed[k]);
    CompletedAtMostOnce(m, k);
  }

  lemma {:induction false} ServedOwned(log: seq<Visit>, id: nat, owned: set<Endpoint>)
    requires forall i :: 0 <= i < |log| ==> log[i].endpoint in owned
    ensures forall e :: e in ServedBy(log, id) ==> e in owned
  {
    if log != [] {
      ServedOwned(log[..|log| - 1], id, owned);
    }
  }

  /** Of the requests that have left the machine, those are completed whose call tree has only endpoints of known
      microservices, and those lost whose call tree has another endpoint, such as the user's own. */
  lemma CompletedIffOwned(p: Spec, states: seq<Machine>, steps: seq<Step>)
    requires Run(p, states, steps)
    ensures var m := Final(states);
            && (forall k :: 0 <= k < |m.completed| ==>
                  m.completed[k].api in p.entry && forall e :: e in Plan(p, m.completed[k].api) ==> e in m.graph.owner)
            && (forall k :: 0 <= k < |m.lost| ==>
                  m.lost[k].api in p.entry && exists e :: e in Plan(p, m.lost[k].api) && e !in m.graph.owner)
  {
    EveryRunOnPlan(p, states, steps);
    var m := Final(states);
    forall k | 0 <= k < |m.completed|
      ensures m.completed[k].api in p.entry && forall e :: e in Plan(p, m.completed[k].api) ==> e in m.graph.owner
    {
      assert Done(p, m.graph, m.log, m.completed[k]);
      ServedOwned(m.log, m.completed[k].requestId, m.graph.owner.Keys);
    }
    forall k | 0 <= k < |m.lost|
      ensures m.lost[k].api in p.entry && exists e :: e in Plan(p, m.lost[k].api) && e !in m.graph.owner
    {
      assert Lost(p, m.graph, m.lost[k]);
    }
  }
}
