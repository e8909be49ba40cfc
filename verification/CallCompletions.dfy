/** Every request completes. A run of the microservice machine that cannot go on has nothing queued, running or on its
    way; each request has been completed exactly once if its call tree has only endpoints of known microservices, and has
    been lost exactly once if not. */
module CallCompletions {
  import opened Domain
  import opened Sums
  import opened CallGraphs
  import opened Replicas
  import opened Traversal
  import opened CallRuns
  import opened CallTrees
  import P = PullBounds

  // Where requests can go

  /** The addresses of the replicas, and the API of each request. */
  datatype Directory = Directory(at: set<Address>, apis: map<nat, string>)

  /** Every caller to return to is a replica. */
  ghost predicate Chain(at: set<Address>, caller: Option<CallerRef>)
    decreases caller
  {
    caller.Some? ==>
      Address(caller.value.microservice, caller.value.server) in at && Chain(at, caller.value.resumeCaller)
  }

  ghost predicate Registered(e: Directory, id: nat, api: string)
  {
    id in e.apis && e.apis[id] == api
  }

  ghost predicate Homed(e: Directory, hop: Hop)
  {
    Registered(e, hop.requestId, hop.api) && Chain(e.at, hop.caller)
  }

  /** A call is for the microservice that has its endpoint. */
  ghost predicate Routed(e: Directory, g: Graph, c: OutboundCall)
  {
    Homed(e, c.hop) && c.hop.endpoint in g.owner && c.target == g.owner[c.hop.endpoint]
  }

  ghost predicate Sendable(e: Directory, c: ReturnMsg)
  {
    Homed(e, c.hop) && c.to in e.at
  }

  ghost predicate QueueHomed(e: Directory, queue: seq<Work>)
  {
    forall i :: 0 <= i < |queue| ==> Homed(e, queue[i].hop)
  }

  ghost predicate OutHomed(e: Directory, g: Graph, out: Outbox)
  {
    && (forall i :: 0 <= i < |out.calls| ==> Routed(e, g, out.calls[i]))
    && (forall i :: 0 <= i < |out.replies| ==> Sendable(e, out.replies[i]))
    && (forall i :: 0 <= i < |out.begun| ==> Homed(e, out.begun[i].hop) && out.begun[i].host in e.at)
    && (forall i :: 0 <= i < |out.completed| ==> Registered(e, out.completed[i].requestId, out.completed[i].api))
    && (forall i :: 0 <= i < |out.lost| ==> Registered(e, out.lost[i].requestId, out.lost[i].api))
  }

  ghost predicate EffectsHomed(e: Directory, g: Graph, fx: Effects)
  {
    fx.replica.cfg.at in e.at && QueueHomed(e, fx.replica.queue) && OutHomed(e, g, fx.out)
  }

  lemma AdvanceHomed(e: Directory, g: Graph, fx: Effects, hop: Hop, now: Time)
    requires EffectsHomed(e, g, fx) && Homed(e, hop)
    ensures EffectsHomed(e, g, Advance(fx, g, hop, now))
  {
    var kids := FilteredChildren(g.children, hop.endpoint, hop.api);
    if hop.sibling < |kids| {
      assert Homed(e, ChildHop(fx.replica.cfg.at, hop, kids[hop.sibling]));
    } else if hop.caller.Some? {
      assert Homed(e, ResumedHop(hop, hop.caller.value));
    }
  }

  lemma BeginHomed(e: Directory, g: Graph, fx: Effects, hop: Hop, duration: nat, now: Time)
    requires EffectsHomed(e, g, fx) && Homed(e, hop)
    ensures EffectsHomed(e, g, BeginService(fx, g, hop, duration, now))
  {
    assert Homed(e, hop.(duration := duration));
  }

  lemma ResumeHomed(e: Directory, g: Graph, fx: Effects, hop: Hop, now: Time)
    requires EffectsHomed(e, g, fx) && Homed(e, hop)
    ensures EffectsHomed(e, g, HandleReturn(fx, g, hop, now))
  {
    var released := if hop.outboundRelease.Some? && hop.outboundRelease.value.target != ""
                    then fx.(out := fx.out.(releases := fx.out.releases + [hop.outboundRelease.value])) else fx;
    assert Homed(e, hop.(outboundRelease := None));
    AdvanceHomed(e, g, released, hop.(outboundRelease := None), now);
  }

  lemma {:induction false} DrainHomed(e: Directory, g: Graph, fx: Effects, duration: nat, now: Time)
    requires EffectsHomed(e, g, fx)
    ensures EffectsHomed(e, g, DrainQueue(fx, g, duration, now))
    decreases |fx.replica.queue|
  {
    var s := fx.replica;
    if s.queue != [] && s.inFlight < s.cfg.maxConcurrency {
      var popped := s.(queue := s.queue[1..]);
      assert Homed(e, s.queue[0].hop);
      match s.queue[0]
      case Upstream(hop) => BeginHomed(e, g, fx.(replica := popped.(inFlight := s.inFlight + 1)), hop, duration, now);
      case DownstreamReturn(hop) =>
        ResumeHomed(e, g, fx.(replica := popped), hop, now);
        ResumeKeepsQueue(fx.(replica := popped), g, hop, now);
        DrainHomed(e, g, HandleReturn(fx.(replica := popped), g, hop, now), duration, now);
    }
  }

  lemma EnqueueHomed(e: Directory, queue: seq<Work>, work: Work, edf: bool)
    requires QueueHomed(e, queue) && Homed(e, work.hop)
    ensures QueueHomed(e, Enqueue(queue, work, edf))
  {
  }

  lemma InputHomed(e: Directory, g: Graph, s: ReplicaState, work: Work, duration: nat, now: Time)
    requires s.cfg.at in e.at && QueueHomed(e, s.queue) && Homed(e, work.hop)
    ensures EffectsHomed(e, g, Input(s, g, work, duration, now))
  {
    EnqueueHomed(e, s.queue, work, s.cfg.edf);
    if work.Upstream? && work.hop.slotRelease.Some? {
      if UsesJbsq(s.cfg) {
        var event := PullArrived(s.cfg.at, UpstreamQueued(s.queue), s.inFlight, s.pendingPulls, s.cfg.jbsqN.value);
        var queued := s.(pendingPulls := SaturatingSub(s.pendingPulls, 1), queue := Enqueue(s.queue, work, s.cfg.edf));
        DrainHomed(e, g, Effects(queued, NOTHING.(audit := [event])), duration, now);
      } else {
        BeginHomed(e, g, Begin(s.(inFlight := s.inFlight + 1)), work.hop, duration, now);
      }
    } else {
      DrainHomed(e, g, Begin(s.(queue := Enqueue(s.queue, work, s.cfg.edf))), duration, now);
    }
  }

  lemma CompleteHomed(e: Directory, g: Graph, s: ReplicaState, hop: Hop, duration: nat, now: Time)
    requires s.cfg.at in e.at && QueueHomed(e, s.queue) && Homed(e, hop)
    ensures EffectsHomed(e, g, Complete(s, g, hop, duration, now))
  {
    assert Homed(e, Served(hop));
    AdvanceHomed(e, g, Freed(s, hop), Served(hop), now);
    var advanced := Advance(Freed(s, hop), g, Served(hop), now);
    DrainHomed(e, g, advanced, duration, now);
    RefillSendsOnlyPulls(DrainQueue(advanced, g, duration, now));
  }

  /** Everything in the machine can get to where it is going. */
  ghost predicate Located(e: Directory, m: Machine)
  {
    && (forall a :: a in e.at ==> ReplicaAt(m, a))
    && (forall r :: 0 <= r < |m.replicas| ==> m.replicas[r].cfg.at in e.at && QueueHomed(e, m.replicas[r].queue))
    && (forall i :: 0 <= i < |m.arrivals| ==> Homed(e, m.arrivals[i]))
    && (forall i :: 0 <= i < |m.upstreams| ==> Sendable(e, m.upstreams[i]))
    && (forall i :: 0 <= i < |m.initialPulls| ==> m.initialPulls[i] < |m.replicas|)
    && (forall i :: 0 <= i < |m.pulls| ==> m.pulls[i] < |m.replicas|)
    && ChannelsHomed(e, m)
  }

  ghost predicate ReplicaAt(m: Machine, a: Address)
  {
    exists r :: 0 <= r < |m.replicas| && m.replicas[r].cfg.at == a
  }

  ghost predicate ChannelsHomed(e: Directory, m: Machine)
  {
    && (forall i :: 0 <= i < |m.calls| ==> Routed(e, m.graph, m.calls[i]))
    && (forall i :: 0 <= i < |m.replies| ==> Sendable(e, m.replies[i]))
    && (forall i :: 0 <= i < |m.running| ==> Homed(e, m.running[i].hop) && m.running[i].host in e.at)
    && (forall i :: 0 <= i < |m.completed| ==> Registered(e, m.completed[i].requestId, m.completed[i].api))
    && (forall i :: 0 <= i < |m.lost| ==> Registered(e, m.lost[i].requestId, m.lost[i].api))
  }

  lemma ReplicaLocated(e: Directory, m: Machine, r: nat, fx: Effects)
    requires Located(e, m) && r < |m.replicas| && EffectsHomed(e, m.graph, fx) && fx.replica.cfg == m.replicas[r].cfg
    ensures Located(e, AfterReplica(m, r, fx))
  {
    var n := AfterReplica(m, r, fx);
    forall a | a in e.at ensures ReplicaAt(n, a) {
      var q :| 0 <= q < |m.replicas| && m.replicas[q].cfg.at == a;
      assert n.replicas[q].cfg.at == a;
    }
  }

  lemma SameReplicas(e: Directory, m: Machine, n: Machine)
    requires Located(e, m) && n.replicas == m.replicas
    ensures forall a :: a in e.at ==> ReplicaAt(n, a)
  {
    assert forall a :: ReplicaAt(m, a) ==> ReplicaAt(n, a);
  }

  lemma EnterLocated(e: Directory, m: Machine, i: nat, r: nat)
    requires Located(e, m) && Enabled(m, Enter(i, r))
    ensures Located(e, Next(m, Enter(i, r)))
  {
    SameReplicas(e, m, Next(m, Enter(i, r)));
    assert Homed(e, m.arrivals[i]);
  }

  lemma PushLocated(e: Directory, m: Machine, i: nat, r: nat)
    requires Located(e, m) && Enabled(m, Push(i, r))
    ensures Located(e, Next(m, Push(i, r)))
  {
    SameReplicas(e, m, Next(m, Push(i, r)));
    assert Routed(e, m.graph, m.calls[i]);
    assert Homed(e, Pushed(m.calls[i].hop, m.replicas[r].cfg.at));
  }

  lemma HandLocated(e: Directory, m: Machine, i: nat, j: nat)
    requires Located(e, m) && Enabled(m, Hand(i, j))
    ensures Located(e, Next(m, Hand(i, j)))
  {
    SameReplicas(e, m, Next(m, Hand(i, j)));
    assert Routed(e, m.graph, m.calls[i]);
    assert Homed(e, Handed(m.calls[i].hop, m.replicas[m.pulls[j]].cfg.at));
  }

  lemma LessLocated(e: Directory, m: Machine, n: Machine)
    requires Located(e, m) && n.replicas == m.replicas && n.graph == m.graph && n.calls == m.calls && n.pulls == m.pulls
    requires n.completed == m.completed && n.lost == m.lost && n.arrivals == m.arrivals
    requires forall x :: x in n.upstreams ==> x in m.upstreams
    requires forall x :: x in n.replies ==> x in m.replies
    requires forall x :: x in n.running ==> x in m.running
    requires forall x :: x in n.initialPulls ==> x in m.initialPulls
    ensures Located(e, n)
  {
    assert forall a :: ReplicaAt(m, a) ==> ReplicaAt(n, a);
    forall i | 0 <= i < |n.upstreams| ensures Sendable(e, n.upstreams[i]) { assert n.upstreams[i] in n.upstreams; }
    forall i | 0 <= i < |n.replies| ensures Sendable(e, n.replies[i]) { assert n.replies[i] in n.replies; }
    forall i | 0 <= i < |n.running| ensures Homed(e, n.running[i].hop) && n.running[i].host in e.at {
      assert n.running[i] in n.running;
    }
    forall i | 0 <= i < |n.initialPulls| ensures n.initialPulls[i] < |n.replicas| { assert n.initialPulls[i] in n.initialPulls; }
  }

  lemma DeliveryLocated(e: Directory, m: Machine, step: Step)
    requires Located(e, m) && Enabled(m, step) && (step.DeliverUpstream? || step.DeliverReply?)
    ensures Located(e, Next(m, step))
  {
    match step
    case DeliverUpstream(i, r, duration, now) =>
      InputHomed(e, m.graph, m.replicas[r], Upstream(m.upstreams[i].hop), duration, now);
      P.InputCallsFree(m.replicas[r], m.graph, Upstream(m.upstreams[i].hop), duration, now);
      LessLocated(e, m, m.(upstreams := RemoveAt(m.upstreams, i)));
      ReplicaLocated(e, m.(upstreams := RemoveAt(m.upstreams, i)), r,
                     Input(m.replicas[r], m.graph, Upstream(m.upstreams[i].hop), duration, now));
    case DeliverReply(i, r, duration, now) =>
      InputHomed(e, m.graph, m.replicas[r], DownstreamReturn(m.replies[i].hop), duration, now);
      P.InputCallsFree(m.replicas[r], m.graph, DownstreamReturn(m.replies[i].hop), duration, now);
      LessLocated(e, m, m.(replies := RemoveAt(m.replies, i)));
      ReplicaLocated(e, m.(replies := RemoveAt(m.replies, i)), r,
                     Input(m.replicas[r], m.graph, DownstreamReturn(m.replies[i].hop), duration, now));
  }

  lemma FinishLocated(e: Directory, m: Machine, step: Step)
    requires Located(e, m) && Enabled(m, step) && step.Finish?
    ensures Located(e, Next(m, step))
  {
    var Finish(i, r, duration, now) := step;
    var hop := m.running[i].hop;
    var m0 := m.(running := RemoveAt(m.running, i), log := m.log + [VisitOf(hop)]);
    CompleteHomed(e, m.graph, m.replicas[r], hop, duration, now);
    P.CompleteCallsFree(m.replicas[r], m.graph, hop, duration, now);
    LessLocated(e, m, m0);
    ReplicaLocated(e, m0, r, Complete(m.replicas[r], m.graph, hop, duration, now));
  }

  lemma AskLocated(e: Directory, m: Machine, i: nat)
    requires Located(e, m) && Enabled(m, AskPull(i))
    ensures Located(e, Next(m, AskPull(i)))
  {
    var m0 := m.(initialPulls := RemoveAt(m.initialPulls, i));
    LessLocated(e, m, m0);
    ReplicaLocated(e, m0, m.initialPulls[i], RequestPull(m.replicas[m.initialPulls[i]]));
  }

  lemma NextLocated(e: Directory, m: Machine, step: Step)
    requires Located(e, m) && Enabled(m, step)
    ensures Located(e, Next(m, step))
  {
    match step
    case DeliverUpstream(_, _, _, _) => DeliveryLocated(e, m, step);
    case DeliverReply(_, _, _, _) => DeliveryLocated(e, m, step);
    case Finish(_, _, _, _) => FinishLocated(e, m, step);
    case AskPull(i) => AskLocated(e, m, i);
    case Enter(i, r) => EnterLocated(e, m, i, r);
    case Push(i, r) => PushLocated(e, m, i, r);
    case Hand(i, j) => HandLocated(e, m, i, j);
  }

  // A JBSQ replica never runs out of tokens

  /** Initial pulls, pulls and calls on the way, and requests that the replica holds. */
  ghost function Tokens(m: Machine, r: nat): int
    requires r < |m.replicas|
  {
    Sum(m.initialPulls, P.Is(r)) + P.Outstanding(m, r) + JbsqOccupancy(m.replicas[r])
  }

  ghost predicate Alive(m: Machine)
  {
    forall r :: 0 <= r < |m.replicas| && UsesJbsq(m.replicas[r].cfg) ==> m.replicas[r].cfg.jbsqN.value >= 1 && Tokens(m, r) >= 1
  }

  lemma TokensAfterReplica(m0: Machine, t: nat, fx: Effects, r: nat)
    requires t < |m0.replicas| && r < |m0.replicas| && fx.replica.cfg == m0.replicas[t].cfg
    ensures Tokens(AfterReplica(m0, t, fx), r)
         == Tokens(m0, r) + if r == t then fx.out.pulls + JbsqOccupancy(fx.replica) - JbsqOccupancy(m0.replicas[t]) else 0
  {
    SumConcat(m0.pulls, Repeat(t, fx.out.pulls), P.Is(r));
    SumConstant(Repeat(t, fx.out.pulls), P.Is(r), if r == t then 1 else 0);
  }

  /** An input neither gains nor loses a request, nor pulls. */
  lemma InputOccupancy(p: Spec, m: Machine, t: nat, work: Work, duration: nat, now: Time)
    requires OnPlan(p, m) && P.SlotsOk(m) && t < |m.replicas| && UsesJbsq(m.replicas[t].cfg)
    requires work.Upstream? ==> work.hop.endpoint in m.graph.timed && work.hop.slotRelease.Some?
    ensures var fx := Input(m.replicas[t], m.graph, work, duration, now);
            && fx.out.pulls == 0 && fx.replica.cfg == m.replicas[t].cfg
            && JbsqOccupancy(fx.replica) == JbsqOccupancy(m.replicas[t]) + if work.Upstream? then 1 else 0
  {
    var v := m.replicas[t];
    assert P.SlotsAt(m, t);
    P.PlanTimed(p, m, t);
    P.EnqueueBooks(v, m.graph, work);
    if work.Upstream? {
      var event := PullArrived(v.cfg.at, UpstreamQueued(v.queue), v.inFlight, v.pendingPulls, v.cfg.jbsqN.value);
      var queued := v.(pendingPulls := SaturatingSub(v.pendingPulls, 1), queue := Enqueue(v.queue, work, v.cfg.edf));
      P.DrainBooks(v, Effects(queued, NOTHING.(audit := [event])), m.graph, duration, now, 0);
    } else {
      P.DrainBooks(v, Begin(v.(queue := Enqueue(v.queue, work, v.cfg.edf))), m.graph, duration, now, 0);
    }
  }

  lemma LessTokens(m: Machine, i: nat, t: nat, r: nat)
    requires P.SlotsOk(m) && i < |m.upstreams| && t < |m.replicas| && r < |m.replicas| && m.replicas[t].cfg.at == m.upstreams[i].to
    ensures Tokens(m.(upstreams := RemoveAt(m.upstreams, i)), r) == Tokens(m, r) - if r == t then 1 else 0
  {
    SumRemove(m.upstreams, i, P.SentTo(m.replicas[r].cfg.at));
    assert r != t ==> m.replicas[r].cfg.at != m.replicas[t].cfg.at;
  }

  lemma UpstreamTokens(p: Spec, m: Machine, step: Step, r: nat)
    requires OnPlan(p, m) && P.SlotsOk(m) && Enabled(m, step) && step.DeliverUpstream?
    requires r < |m.replicas| && UsesJbsq(m.replicas[r].cfg)
    ensures Tokens(Next(m, step), r) == Tokens(m, r)
  {
    var DeliverUpstream(i, t, duration, now) := step;
    var work := Upstream(m.upstreams[i].hop);
    var m0 := m.(upstreams := RemoveAt(m.upstreams, i));
    LessTokens(m, i, t, r);
    P.InputCallsFree(m.replicas[t], m.graph, work, duration, now);
    TokensAfterReplica(m0, t, Input(m.replicas[t], m.graph, work, duration, now), r);
    if r == t {
      assert P.SlotsAt(m, t) && Early(p, m.graph, m.log, m.upstreams[i].hop);
      InputOccupancy(p, m, t, work, duration, now);
    }
  }

  lemma ReplyTokens(p: Spec, m: Machine, step: Step, r: nat)
    requires OnPlan(p, m) && P.SlotsOk(m) && Enabled(m, step) && step.DeliverReply?
    requires r < |m.replicas| && UsesJbsq(m.replicas[r].cfg)
    ensures Tokens(Next(m, step), r) == Tokens(m, r)
  {
    var DeliverReply(i, t, duration, now) := step;
    var work := DownstreamReturn(m.replies[i].hop);
    var m0 := m.(replies := RemoveAt(m.replies, i));
    P.InputCallsFree(m.replicas[t], m.graph, work, duration, now);
    TokensAfterReplica(m0, t, Input(m.replicas[t], m.graph, work, duration, now), r);
    assert Tokens(m0, r) == Tokens(m, r);
    if r == t {
      InputOccupancy(p, m, t, work, duration, now);
    }
  }

  lemma FinishTokens(p: Spec, m: Machine, step: Step, r: nat)
    requires OnPlan(p, m) && P.SlotsOk(m) && Enabled(m, step) && step.Finish?
    requires r < |m.replicas| && UsesJbsq(m.replicas[r].cfg)
    ensures if r == step.r then Tokens(Next(m, step), r) >= m.replicas[r].cfg.jbsqN.value
            else Tokens(Next(m, step), r) == Tokens(m, r)
  {
    var Finish(i, t, duration, now) := step;
    var hop := m.running[i].hop;
    var m0 := m.(running := RemoveAt(m.running, i), log := m.log + [VisitOf(hop)]);
    var fx := Complete(m.replicas[t], m.graph, hop, duration, now);
    P.FinishBooks(p, m, step);
    TokensAfterReplica(m0, t, fx, r);
    assert Tokens(m0, r) == Tokens(m, r);
    P.OutstandingNonNegative(m, r);
  }

  lemma AskTokens(m: Machine, i: nat, r: nat)
    requires P.SlotsOk(m) && Enabled(m, AskPull(i)) && r < |m.replicas| && UsesJbsq(m.replicas[r].cfg)
    ensures if r == m.initialPulls[i] && !JbsqCanPull(m.replicas[r])
            then Tokens(Next(m, AskPull(i)), r) >= m.replicas[r].cfg.jbsqN.value
            else Tokens(Next(m, AskPull(i)), r) == Tokens(m, r)
  {
    var t := m.initialPulls[i];
    assert P.SlotsAt(m, r);
    SumRemove(m.initialPulls, i, P.Is(r));
    SumNonNegative(RemoveAt(m.initialPulls, i), P.Is(r));
    TokensAfterReplica(m.(initialPulls := RemoveAt(m.initialPulls, i)), t, RequestPull(m.replicas[t]), r);
  }

  lemma RoutingTokens(m: Machine, step: Step, r: nat)
    requires P.SlotsOk(m) && Enabled(m, step) && (step.Enter? || step.Push? || step.Hand?)
    requires r < |m.replicas| && UsesJbsq(m.replicas[r].cfg)
    ensures Tokens(Next(m, step), r) == Tokens(m, r)
  {
    var at := m.replicas[r].cfg.at;
    match step
    case Enter(i, t) => SumAppend(m.upstreams, ReturnMsg(m.replicas[t].cfg.at, m.arrivals[i]), P.SentTo(at));
    case Push(i, t) =>
      SumAppend(m.upstreams, ReturnMsg(m.replicas[t].cfg.at, Pushed(m.calls[i].hop, m.replicas[t].cfg.at)), P.SentTo(at));
    case Hand(i, j) =>
      var t := m.pulls[j];
      SumRemove(m.pulls, j, P.Is(r));
      SumAppend(m.upstreams, ReturnMsg(m.replicas[t].cfg.at, Handed(m.calls[i].hop, m.replicas[t].cfg.at)), P.SentTo(at));
  }

  lemma NextTokens(p: Spec, m: Machine, step: Step, r: nat)
    requires OnPlan(p, m) && P.SlotsOk(m) && Enabled(m, step) && r < |m.replicas| && UsesJbsq(m.replicas[r].cfg)
    requires m.replicas[r].cfg.jbsqN.value >= 1 && Tokens(m, r) >= 1
    requires r < |Next(m, step).replicas|
    ensures Tokens(Next(m, step), r) >= 1
  {
    match step
    case DeliverUpstream(_, _, _, _) => UpstreamTokens(p, m, step, r);
    case DeliverReply(_, _, _, _) => ReplyTokens(p, m, step, r);
    case Finish(_, _, _, _) => FinishTokens(p, m, step, r);
    case AskPull(i) => AskTokens(m, i, r);
    case _ => RoutingTokens(m, step, r);
  }

  lemma NextAlive(p: Spec, m: Machine, step: Step)
    requires OnPlan(p, m) && P.SlotsOk(m) && Enabled(m, step) && Alive(m)
    ensures Alive(Next(m, step))
  {
    var n := Next(m, step);
    P.NextSame(m, step);
    forall r | 0 <= r < |n.replicas| && UsesJbsq(n.replicas[r].cfg)
      ensures n.replicas[r].cfg.jbsqN.value >= 1 && Tokens(n, r) >= 1
    {
      assert n.replicas[r].cfg == m.replicas[r].cfg;
      NextTokens(p, m, step, r);
    }
  }

  // What a stuck machine has left

  /** Every call has a replica that can serve it, and every request one that it can enter by. */
  ghost predicate Provided(m: Machine)
  {
    && (forall e :: e in m.graph.owner ==> HasReplica(m, m.graph.owner[e]))
    && (forall i :: 0 <= i < |m.arrivals| ==>
          m.arrivals[i].endpoint in m.graph.owner && Entered(m, m.graph.owner[m.arrivals[i].endpoint]))
    && (forall r :: 0 <= r < |m.replicas| ==> m.replicas[r].cfg.maxConcurrency >= 1)
  }

  ghost predicate HasReplica(m: Machine, microservice: string)
  {
    exists r: nat :: Serves(m, r, microservice)
  }

  ghost predicate Entered(m: Machine, microservice: string)
  {
    exists r: nat :: Serves(m, r, microservice) && !m.replicas[r].cfg.pulls
  }

  /** The same replicas and the same graph, and no new arrivals. */
  ghost predicate SameSetup(m: Machine, n: Machine)
  {
    && |n.replicas| == |m.replicas| && n.graph == m.graph
    && (forall r :: 0 <= r < |m.replicas| ==> n.replicas[r].cfg == m.replicas[r].cfg)
    && (forall i :: 0 <= i < |n.arrivals| ==> n.arrivals[i] in m.arrivals)
  }

  lemma SameGraph(m: Machine, step: Step)
    requires Enabled(m, step)
    ensures Next(m, step).graph == m.graph
    ensures forall i :: 0 <= i < |Next(m, step).arrivals| ==> Next(m, step).arrivals[i] in m.arrivals
  {
    var n := Next(m, step);
    if step.Enter? {
      assert n.arrivals == RemoveAt(m.arrivals, step.i);
    } else {
      assert n.arrivals == m.arrivals;
    }
  }

  lemma NextSameSetup(m: Machine, step: Step)
    requires P.SlotsOk(m) && Enabled(m, step)
    ensures SameSetup(m, Next(m, step))
  {
    P.NextSame(m, step);
    SameGraph(m, step);
  }

  lemma StillServed(m: Machine, n: Machine, ms: string)
    requires SameSetup(m, n)
    ensures HasReplica(m, ms) ==> HasReplica(n, ms)
    ensures Entered(m, ms) ==> Entered(n, ms)
  {
    if HasReplica(m, ms) {
      var r: nat :| Serves(m, r, ms);
      assert Serves(n, r, ms);
    }
    if Entered(m, ms) {
      var r: nat :| Serves(m, r, ms) && !m.replicas[r].cfg.pulls;
      assert Serves(n, r, ms) && !n.replicas[r].cfg.pulls;
    }
  }

  lemma NextProvided(m: Machine, n: Machine)
    requires SameSetup(m, n) && Provided(m)
    ensures Provided(n)
  {
    forall e | e in n.graph.owner ensures HasReplica(n, n.graph.owner[e]) {
      StillServed(m, n, n.graph.owner[e]);
    }
    forall i | 0 <= i < |n.arrivals|
      ensures n.arrivals[i].endpoint in n.graph.owner && Entered(n, n.graph.owner[n.arrivals[i].endpoint])
    {
      var j :| 0 <= j < |m.arrivals| && m.arrivals[j] == n.arrivals[i];
      StillServed(m, n, n.graph.owner[n.arrivals[i].endpoint]);
    }
  }

  /** What every step keeps. */
  ghost predicate Good(p: Spec, e: Directory, m: Machine)
  {
    OnPlan(p, m) && Unique(m) && P.SlotsOk(m) && Located(e, m) && Alive(m) && Provided(m)
  }

  lemma NextGood(p: Spec, e: Directory, m: Machine, step: Step)
    requires Good(p, e, m) && Enabled(m, step)
    ensures Good(p, e, Next(m, step))
  {
    NextOnPlan(p, m, step);
    P.NextKeepsSlots(p, m, step);
    NextLocated(e, m, step);
    NextAlive(p, m, step);
    NextSameSetup(m, step);
    NextProvided(m, Next(m, step));
  }

  /** A replica with nothing running and nothing on its way to it has a pull out, if it is one that pulls. */
  lemma PullIsOut(p: Spec, e: Directory, m: Machine, r: nat) returns (j: nat)
    requires Good(p, e, m) && r < |m.replicas| && m.replicas[r].cfg.pulls
    requires m.running == [] && m.upstreams == [] && m.initialPulls == []
    ensures j < |m.pulls| && m.pulls[j] == r
  {
    assert P.SlotsAt(m, r);
    assert UsesJbsq(m.replicas[r].cfg) ==> Tokens(m, r) >= 1;
    j := SumPositive(m.pulls, P.Is(r));
  }

  lemma CallCanGo(p: Spec, e: Directory, m: Machine) returns (step: Step)
    requires Good(p, e, m) && m.calls != [] && m.running == [] && m.upstreams == [] && m.initialPulls == []
    ensures Enabled(m, step)
  {
    assert Routed(e, m.graph, m.calls[0]);
    assert HasReplica(m, m.calls[0].target);
    var r: nat :| Serves(m, r, m.calls[0].target);
    if m.replicas[r].cfg.pulls {
      var j := PullIsOut(p, e, m, r);
      step := Hand(0, j);
    } else {
      step := Push(0, r);
    }
  }

  ghost predicate Over(m: Machine)
  {
    m.arrivals == [] && m.calls == [] && m.upstreams == [] && m.replies == [] && m.running == [] && m.initialPulls == []
  }

  lemma ReplicaOf(e: Directory, m: Machine, a: Address) returns (r: nat)
    requires Located(e, m) && a in e.at
    ensures r < |m.replicas| && m.replicas[r].cfg.at == a
  {
    assert ReplicaAt(m, a);
    r :| 0 <= r < |m.replicas| && m.replicas[r].cfg.at == a;
  }

  lemma ArrivalCanGo(m: Machine) returns (step: Step)
    requires Provided(m) && m.arrivals != []
    ensures Enabled(m, step)
  {
    assert Entered(m, m.graph.owner[m.arrivals[0].endpoint]);
    var r: nat :| Serves(m, r, m.graph.owner[m.arrivals[0].endpoint]) && !m.replicas[r].cfg.pulls;
    step := Enter(0, r);
  }

  lemma MessageCanGo(e: Directory, m: Machine) returns (step: Step)
    requires Located(e, m) && (m.initialPulls != [] || m.upstreams != [] || m.replies != [] || m.running != [])
    ensures Enabled(m, step)
  {
    if m.initialPulls != [] {
      step := AskPull(0);
    } else if m.upstreams != [] {
      assert Sendable(e, m.upstreams[0]);
      var r := ReplicaOf(e, m, m.upstreams[0].to);
      step := DeliverUpstream(0, r, 0, 0);
    } else if m.replies != [] {
      assert Sendable(e, m.replies[0]);
      var r := ReplicaOf(e, m, m.replies[0].to);
      step := DeliverReply(0, r, 0, 0);
    } else {
      var r := ReplicaOf(e, m, m.running[0].host);
      step := Finish(0, r, 0, 0);
    }
  }

  /** While anything is to come, on its way or running, some step can be taken. */
  lemma SomethingCanHappen(p: Spec, e: Directory, m: Machine) returns (step: Step)
    requires Good(p, e, m) && !Over(m)
    ensures Enabled(m, step)
  {
    if m.arrivals != [] {
      step := ArrivalCanGo(m);
    } else if m.initialPulls != [] || m.upstreams != [] || m.replies != [] || m.running != [] {
      step := MessageCanGo(e, m);
    } else {
      step := CallCanGo(p, e, m);
    }
  }

  /** With nothing running no replica has anything queued. */
  lemma OverMeansIdle(p: Spec, e: Directory, m: Machine, r: nat)
    requires Good(p, e, m) && Over(m) && r < |m.replicas|
    ensures m.replicas[r].queue == [] && m.replicas[r].inFlight == 0
  {
    assert P.SlotsAt(m, r);
  }

  // Whole runs

  /** A bound of at least one, and something to start with. */
  ghost predicate Started(m: Machine)
  {
    && (forall i :: 0 <= i < |m.initialPulls| ==> m.initialPulls[i] < |m.replicas|)
    && (forall r :: 0 <= r < |m.replicas| && UsesJbsq(m.replicas[r].cfg) ==>
          m.replicas[r].cfg.jbsqN.value >= 1 && Sum(m.initialPulls, P.Is(r)) >= 1)
  }

  /** What has to be set up for every request to be served. */
  ghost predicate Provisioned(m: Machine)
  {
    P.Unpulled(m) && Started(m) && Provided(m)
  }

  ghost function DirectoryOf(m: Machine): Directory
  {
    Directory(set r | 0 <= r < |m.replicas| :: m.replicas[r].cfg.at, ApisOf(m.arrivals))
  }

  ghost function ApisOf(hops: seq<Hop>): map<nat, string>
  {
    if hops == [] then map[] else ApisOf(hops[..|hops| - 1])[hops[|hops| - 1].requestId := hops[|hops| - 1].api]
  }

  lemma {:induction false} ApisRegistered(hops: seq<Hop>, i: nat)
    requires i < |hops| && forall i, j :: 0 <= i < j < |hops| ==> hops[i].requestId != hops[j].requestId
    ensures hops[i].requestId in ApisOf(hops) && ApisOf(hops)[hops[i].requestId] == hops[i].api
  {
    if i < |hops| - 1 {
      ApisRegistered(hops[..|hops| - 1], i);
    }
  }

  lemma InitialGood(p: Spec, m: Machine)
    requires Initial(p, m) && Provisioned(m)
    ensures P.SlotsOk(m) && Located(DirectoryOf(m), m) && Alive(m) && Provided(m)
  {
    var e := DirectoryOf(m);
    P.InitialSlots(p, m);
    forall i | 0 <= i < |m.arrivals| ensures Homed(e, m.arrivals[i]) {
      ApisRegistered(m.arrivals, i);
    }
    forall r | 0 <= r < |m.replicas| && UsesJbsq(m.replicas[r].cfg) ensures Tokens(m, r) >= 1 {
      P.OutstandingNonNegative(m, r);
    }
  }

  lemma {:induction false} EveryRunIsGood(p: Spec, states: seq<Machine>, steps: seq<Step>)
    requires Run(p, states, steps) && Provisioned(states[0])
    ensures Good(p, DirectoryOf(states[0]), Final(states))
    decreases |steps|
  {
    if steps == [] {
      EveryRunOnPlan(p, states, steps);
      InitialGood(p, states[0]);
    } else {
      RunPrefix(p, states, steps);
      EveryRunIsGood(p, states[..|steps|], steps[..|steps| - 1]);
      NextGood(p, DirectoryOf(states[0]), Final(states[..|steps|]), steps[|steps| - 1]);
    }
  }

  ghost predicate Stuck(m: Machine)
  {
    forall step :: !Enabled(m, step)
  }

  /** A run that cannot go on has left nothing to come, on its way, running or queued anywhere. */
  lemma StuckMeansOver(p: Spec, states: seq<Machine>, steps: seq<Step>)
    requires Run(p, states, steps) && Provisioned(states[0]) && Stuck(Final(states))
    ensures Over(Final(states))
    ensures forall r :: 0 <= r < |Final(states).replicas| ==> Final(states).replicas[r].queue == []
  {
    var e, m := DirectoryOf(states[0]), Final(states);
    EveryRunIsGood(p, states, steps);
    if !Over(m) {
      var step := SomethingCanHappen(p, e, m);
    }
    forall r | 0 <= r < |m.replicas| ensures m.replicas[r].queue == [] {
      OverMeansIdle(p, e, m, r);
    }
  }

  /** Every endpoint of the API's call tree belongs to a microservice. */
  ghost predicate AllOwned(p: Spec, g: Graph, api: string)
  {
    Checked(p) && api in p.entry && forall e :: e in Plan(p, api) ==> e in g.owner
  }

  ghost predicate CompletedOnce(m: Machine, id: nat)
  {
    Sum(m.completed, OfCompleted(Only(id))) == 1 && Sum(m.lost, OfHop(Only(id))) == 0
  }

  ghost predicate LostOnce(m: Machine, id: nat)
  {
    Sum(m.completed, OfCompleted(Only(id))) == 0 && Sum(m.lost, OfHop(Only(id))) == 1
  }

  lemma LeftOnce(p: Spec, states: seq<Machine>, steps: seq<Step>, i: nat)
    requires Run(p, states, steps) && Provisioned(states[0]) && Stuck(Final(states)) && i < |states[0].arrivals|
    ensures var (m, id) := (Final(states), states[0].arrivals[i].requestId); CompletedOnce(m, id) || LostOnce(m, id)
  {
    var m, f := Final(states), Only(states[0].arrivals[i].requestId);
    StuckMeansOver(p, states, steps);
    ExactlyOnePlace(p, states, steps, i);
    SumZero(m.replicas, OfReplica(f));
    SumNonNegative(m.completed, OfCompleted(f));
    SumNonNegative(m.lost, OfHop(f));
  }

  lemma CompletedOwned(p: Spec, states: seq<Machine>, steps: seq<Step>, k: nat)
    requires Run(p, states, steps) && k < |Final(states).completed|
    ensures AllOwned(p, Final(states).graph, Final(states).completed[k].api)
  {
    EveryRunOnPlan(p, states, steps);
    CompletedIffOwned(p, states, steps);
  }

  lemma LostUnowned(p: Spec, states: seq<Machine>, steps: seq<Step>, k: nat)
    requires Run(p, states, steps) && k < |Final(states).lost|
    ensures !AllOwned(p, Final(states).graph, Final(states).lost[k].api)
  {
    CompletedIffOwned(p, states, steps);
  }

  /** A request keeps its API, however it ends. */
  lemma SameApi(e: Directory, m: Machine, id: nat, api: string)
    requires Located(e, m) && Registered(e, id, api)
    ensures forall k :: 0 <= k < |m.completed| && m.completed[k].requestId == id ==> m.completed[k].api == api
    ensures forall k :: 0 <= k < |m.lost| && m.lost[k].requestId == id ==> m.lost[k].api == api
  {
  }

  lemma KeptApi(p: Spec, states: seq<Machine>, steps: seq<Step>, i: nat)
    requires Run(p, states, steps) && Provisioned(states[0]) && i < |states[0].arrivals|
    ensures var (m, hop) := (Final(states), states[0].arrivals[i]);
            && (forall k :: 0 <= k < |m.completed| && m.completed[k].requestId == hop.requestId ==> m.completed[k].api == hop.api)
            && (forall k :: 0 <= k < |m.lost| && m.lost[k].requestId == hop.requestId ==> m.lost[k].api == hop.api)
  {
    EveryRunIsGood(p, states, steps);
    ApisRegistered(states[0].arrivals, i);
    SameApi(DirectoryOf(states[0]), Final(states), states[0].arrivals[i].requestId, states[0].arrivals[i].api);
  }

  /** Every request completes. When a run cannot go on, a request has been completed, exactly once, if and only if its call
      tree has only endpoints of known microservices; otherwise it has been lost, exactly once. */
  lemma StuckMeansCompleted(p: Spec, states: seq<Machine>, steps: seq<Step>, i: nat)
    requires Run(p, states, steps) && Provisioned(states[0]) && Stuck(Final(states)) && i < |states[0].arrivals|
    ensures var (m, hop) := (Final(states), states[0].arrivals[i]);
            if AllOwned(p, m.graph, hop.api) then CompletedOnce(m, hop.requestId) else LostOnce(m, hop.requestId)
  {
    var m, id := Final(states), states[0].arrivals[i].requestId;
    LeftOnce(p, states, steps, i);
    KeptApi(p, states, steps, i);
    if CompletedOnce(m, id) {
      var k := SumPositive(m.completed, OfCompleted(Only(id)));
      CompletedOwned(p, states, steps, k);
    } else {
      var k := SumPositive(m.lost, OfHop(Only(id)));
      LostUnowned(p, states, steps, k);
    }
  }
}
