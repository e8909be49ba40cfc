/** Every microservice run ends: each step uses up a part of what is left of some request's call tree. */
module CallEnds {
  import opened Domain
  import opened Sums
  import opened CallGraphs
  import opened Replicas
  import opened Traversal
  import opened CallRuns
  import opened CallTrees

  function Depth(caller: Option<CallerRef>): nat
    decreases caller
  {
    if caller.None? then 0 else 1 + Depth(caller.value.resumeCaller)
  }

  // What is left of a request, in steps: six for each endpoint still to be served, two for each caller to return to.

  ghost function Before(p: Spec, hop: Hop, stage: int): int
  {
    if HopOk(p, hop) then 6 * |Ahead(p, hop)| + 2 * Depth(hop.caller) + stage else 0
  }

  ghost function Between(p: Spec, hop: Hop, stage: int): int
  {
    if HopOk(p, hop) then 6 * |Remaining(p, hop)| + 2 * Depth(hop.caller) + stage else 0
  }

  ghost function ArrivalWeight(p: Spec): Hop -> int { (h: Hop) => Before(p, h, 1) }
  ghost function CallWeight(p: Spec): OutboundCall -> int { (c: OutboundCall) => Before(p, c.hop, 0) }
  ghost function UpstreamWeight(p: Spec): ReturnMsg -> int { (c: ReturnMsg) => Before(p, c.hop, -1) }
  ghost function RunningWeight(p: Spec): Service -> int { (s: Service) => Before(p, s.hop, -3) }
  ghost function ReplyWeight(p: Spec): ReturnMsg -> int { (c: ReturnMsg) => Between(p, c.hop, 4) }
  ghost function WorkWeight(p: Spec): Work -> int
  {
    (w: Work) => if w.Upstream? then Before(p, w.hop, -2) else Between(p, w.hop, 3)
  }
  ghost function QueueWeight(p: Spec): ReplicaState -> int { (s: ReplicaState) => Sum(s.queue, WorkWeight(p)) }

  ghost function Left(p: Spec, m: Machine): int
  {
    Sum(m.arrivals, ArrivalWeight(p)) + Sum(m.calls, CallWeight(p)) + Sum(m.upstreams, UpstreamWeight(p))
    + Sum(m.replies, ReplyWeight(p)) + Sum(m.running, RunningWeight(p)) + Sum(m.replicas, QueueWeight(p))
    + |m.initialPulls|
  }

  ghost function AtReplica(p: Spec, fx: Effects): int
  {
    Sum(fx.replica.queue, WorkWeight(p)) + Sum(fx.out.calls, CallWeight(p)) + Sum(fx.out.replies, ReplyWeight(p))
    + Sum(fx.out.begun, RunningWeight(p))
  }

  lemma AdvanceWeight(p: Spec, g: Graph, fx: Effects, hop: Hop, now: Time)
    requires HopOk(p, hop) && g.children == p.children
    ensures AtReplica(p, Advance(fx, g, hop, now)) <= AtReplica(p, fx) + Between(p, hop, 2)
    ensures Advance(fx, g, hop, now).replica == fx.replica
  {
    var kids := FilteredChildren(g.children, hop.endpoint, hop.api);
    if hop.sibling < |kids| {
      CallKeepsList(p, fx.replica.cfg.at, hop);
      if kids[hop.sibling] in g.owner {
        var child := ChildHop(fx.replica.cfg.at, hop, kids[hop.sibling]);
        SumAppend(fx.out.calls, OutboundCall(g.owner[kids[hop.sibling]], child), CallWeight(p));
        assert Depth(child.caller) == 1 + Depth(hop.caller);
      }
    } else if hop.caller.Some? {
      var c := hop.caller.value;
      ReturnKeepsList(p, hop);
      SumAppend(fx.out.replies, ReturnMsg(Address(c.microservice, c.server), ResumedHop(hop, c)), ReplyWeight(p));
      assert Depth(hop.caller) == 1 + Depth(ResumedHop(hop, c).caller);
    }
  }

  lemma StartWeight(p: Spec, g: Graph, fx: Effects, hop: Hop, duration: nat, now: Time)
    requires HopOk(p, hop)
    ensures AtReplica(p, BeginService(fx, g, hop, duration, now)) <= AtReplica(p, fx) + Before(p, hop, -3)
  {
    ServingTakesHead(p, hop);
    var begun := hop.(duration := duration);
    assert HopOk(p, begun) && Ahead(p, begun) == Ahead(p, hop);
    SumAppend(fx.out.begun, Service(now + duration, fx.replica.cfg.at, begun), RunningWeight(p));
  }

  lemma ResumeWeight(p: Spec, g: Graph, fx: Effects, hop: Hop, now: Time)
    requires HopOk(p, hop) && g.children == p.children
    ensures AtReplica(p, HandleReturn(fx, g, hop, now)) <= AtReplica(p, fx) + Between(p, hop, 2)
  {
    var released := if hop.outboundRelease.Some? && hop.outboundRelease.value.target != ""
                    then fx.(out := fx.out.(releases := fx.out.releases + [hop.outboundRelease.value])) else fx;
    var plain := hop.(outboundRelease := None);
    assert HopOk(p, plain) && Remaining(p, plain) == Remaining(p, hop);
    AdvanceWeight(p, g, released, plain, now);
  }

  ghost predicate Hops(p: Spec, queue: seq<Work>)
  {
    forall i :: 0 <= i < |queue| ==> HopOk(p, queue[i].hop)
  }

  lemma {:induction false} DrainWeight(p: Spec, g: Graph, fx: Effects, duration: nat, now: Time)
    requires g.children == p.children && Hops(p, fx.replica.queue)
    ensures AtReplica(p, DrainQueue(fx, g, duration, now)) <= AtReplica(p, fx)
    decreases |fx.replica.queue|
  {
    var s := fx.replica;
    if s.queue != [] && s.inFlight < s.cfg.maxConcurrency {
      SumRemove(s.queue, 0, WorkWeight(p));
      assert RemoveAt(s.queue, 0) == s.queue[1..];
      var popped := s.(queue := s.queue[1..]);
      assert HopOk(p, s.queue[0].hop);
      match s.queue[0]
      case Upstream(hop) => StartWeight(p, g, fx.(replica := popped.(inFlight := s.inFlight + 1)), hop, duration, now);
      case DownstreamReturn(hop) =>
        ResumeWeight(p, g, fx.(replica := popped), hop, now);
        ResumeKeepsQueue(fx.(replica := popped), g, hop, now);
        DrainWeight(p, g, HandleReturn(fx.(replica := popped), g, hop, now), duration, now);
    }
  }

  lemma EnqueueHops(p: Spec, queue: seq<Work>, work: Work, edf: bool)
    requires Hops(p, queue) && HopOk(p, work.hop)
    ensures Hops(p, Enqueue(queue, work, edf))
  {
  }

  lemma InputWeight(p: Spec, g: Graph, s: ReplicaState, work: Work, duration: nat, now: Time)
    requires g.children == p.children && Hops(p, s.queue) && HopOk(p, work.hop)
    ensures AtReplica(p, Input(s, g, work, duration, now)) <= Sum(s.queue, WorkWeight(p)) + WorkWeight(p)(work)
  {
    SumEnqueue(s.queue, work, s.cfg.edf, WorkWeight(p));
    EnqueueHops(p, s.queue, work, s.cfg.edf);
    if work.Upstream? && work.hop.slotRelease.Some? {
      if UsesJbsq(s.cfg) {
        var event := PullArrived(s.cfg.at, UpstreamQueued(s.queue), s.inFlight, s.pendingPulls, s.cfg.jbsqN.value);
        var queued := s.(pendingPulls := SaturatingSub(s.pendingPulls, 1), queue := Enqueue(s.queue, work, s.cfg.edf));
        DrainWeight(p, g, Effects(queued, NOTHING.(audit := [event])), duration, now);
      } else {
        StartWeight(p, g, Begin(s.(inFlight := s.inFlight + 1)), work.hop, duration, now);
      }
    } else {
      DrainWeight(p, g, Begin(s.(queue := Enqueue(s.queue, work, s.cfg.edf))), duration, now);
    }
  }

  lemma CompleteWeight(p: Spec, g: Graph, s: ReplicaState, hop: Hop, duration: nat, now: Time)
    requires g.children == p.children && Hops(p, s.queue) && HopOk(p, hop)
    ensures AtReplica(p, Complete(s, g, hop, duration, now)) < Sum(s.queue, WorkWeight(p)) + Before(p, hop, -3)
  {
    ServingTakesHead(p, hop);
    AdvanceWeight(p, g, Freed(s, hop), Served(hop), now);
    var advanced := Advance(Freed(s, hop), g, Served(hop), now);
    DrainWeight(p, g, advanced, duration, now);
    RefillSendsOnlyPulls(DrainQueue(advanced, g, duration, now));
  }

  lemma LeftAfterReplica(p: Spec, m: Machine, r: nat, fx: Effects)
    requires r < |m.replicas|
    ensures Left(p, AfterReplica(m, r, fx)) == Left(p, m) - Sum(m.replicas[r].queue, WorkWeight(p)) + AtReplica(p, fx)
  {
    SumUpdate(m.replicas, r, fx.replica, QueueWeight(p));
    SumConcat(m.calls, fx.out.calls, CallWeight(p));
    SumConcat(m.replies, fx.out.replies, ReplyWeight(p));
    SumConcat(m.running, fx.out.begun, RunningWeight(p));
  }

  lemma QueueHops(p: Spec, m: Machine, r: nat)
    requires OnPlan(p, m) && r < |m.replicas|
    ensures Hops(p, m.replicas[r].queue)
  {
    forall i: nat | i < |m.replicas[r].queue| ensures HopOk(p, m.replicas[r].queue[i].hop) {
      assert WorkOk(p, m.graph, m.log, m.replicas[r].queue[i]);
    }
  }

  lemma RoutingShrinks(p: Spec, m: Machine, step: Step)
    requires OnPlan(p, m) && Enabled(m, step) && (step.Enter? || step.Push? || step.Hand?)
    ensures Left(p, Next(m, step)) < Left(p, m)
  {
    match step
    case Enter(i, r) =>
      EnteringHasAll(p, m.arrivals[i]);
      SumRemove(m.arrivals, i, ArrivalWeight(p));
      SumAppend(m.upstreams, ReturnMsg(m.replicas[r].cfg.at, m.arrivals[i]), UpstreamWeight(p));
    case Push(i, r) =>
      var sent := Pushed(m.calls[i].hop, m.replicas[r].cfg.at);
      SameJourney(p, m.calls[i].hop, sent);
      assert Depth(sent.caller) == Depth(m.calls[i].hop.caller);
      SumRemove(m.calls, i, CallWeight(p));
      SumAppend(m.upstreams, ReturnMsg(m.replicas[r].cfg.at, sent), UpstreamWeight(p));
    case Hand(i, j) =>
      var at := m.replicas[m.pulls[j]].cfg.at;
      SameJourney(p, m.calls[i].hop, Handed(m.calls[i].hop, at));
      SumRemove(m.calls, i, CallWeight(p));
      SumAppend(m.upstreams, ReturnMsg(at, Handed(m.calls[i].hop, at)), UpstreamWeight(p));
  }

  lemma DeliveryShrinks(p: Spec, m: Machine, step: Step)
    requires OnPlan(p, m) && Enabled(m, step) && (step.DeliverUpstream? || step.DeliverReply?)
    ensures Left(p, Next(m, step)) < Left(p, m)
  {
    QueueHops(p, m, step.r);
    match step
    case DeliverUpstream(i, r, duration, now) =>
      assert Early(p, m.graph, m.log, m.upstreams[i].hop);
      SumRemove(m.upstreams, i, UpstreamWeight(p));
      InputWeight(p, m.graph, m.replicas[r], Upstream(m.upstreams[i].hop), duration, now);
      LeftAfterReplica(p, m.(upstreams := RemoveAt(m.upstreams, i)), r,
                       Input(m.replicas[r], m.graph, Upstream(m.upstreams[i].hop), duration, now));
    case DeliverReply(i, r, duration, now) =>
      assert Late(p, m.log, m.replies[i].hop);
      SumRemove(m.replies, i, ReplyWeight(p));
      InputWeight(p, m.graph, m.replicas[r], DownstreamReturn(m.replies[i].hop), duration, now);
      LeftAfterReplica(p, m.(replies := RemoveAt(m.replies, i)), r,
                       Input(m.replicas[r], m.graph, DownstreamReturn(m.replies[i].hop), duration, now));
  }

  lemma FinishShrinks(p: Spec, m: Machine, step: Step)
    requires OnPlan(p, m) && Enabled(m, step) && step.Finish?
    ensures Left(p, Next(m, step)) < Left(p, m)
  {
    var Finish(i, r, duration, now) := step;
    QueueHops(p, m, r);
    var hop := m.running[i].hop;
    assert Early(p, m.graph, m.log, hop);
    SumRemove(m.running, i, RunningWeight(p));
    CompleteWeight(p, m.graph, m.replicas[r], hop, duration, now);
    LeftAfterReplica(p, m.(running := RemoveAt(m.running, i), log := m.log + [VisitOf(hop)]), r,
                     Complete(m.replicas[r], m.graph, hop, duration, now));
  }

  lemma NextShrinks(p: Spec, m: Machine, step: Step)
    requires OnPlan(p, m) && Enabled(m, step)
    ensures Left(p, Next(m, step)) < Left(p, m)
  {
    match step
    case Finish(_, _, _, _) => FinishShrinks(p, m, step);
    case DeliverUpstream(_, _, _, _) => DeliveryShrinks(p, m, step);
    case DeliverReply(_, _, _, _) => DeliveryShrinks(p, m, step);
    case AskPull(i) => PullShrinks(p, m, i);
    case _ => RoutingShrinks(p, m, step);
  }

  lemma PullShrinks(p: Spec, m: Machine, i: nat)
    requires Enabled(m, AskPull(i))
    ensures Left(p, Next(m, AskPull(i))) < Left(p, m)
  {
    LeftAfterReplica(p, m.(initialPulls := RemoveAt(m.initialPulls, i)), m.initialPulls[i],
                     RequestPull(m.replicas[m.initialPulls[i]]));
  }

  lemma BeforePositive(p: Spec, hop: Hop)
    ensures Before(p, hop, -3) >= 0 && Between(p, hop, 3) >= 0
  {
    if HopOk(p, hop) {
      ServingTakesHead(p, hop);
    }
  }

  lemma LeftNonNegative(p: Spec, m: Machine)
    ensures Left(p, m) >= 0
  {
    forall hop: Hop ensures Before(p, hop, -3) >= 0 && Between(p, hop, 3) >= 0 {
      BeforePositive(p, hop);
    }
    SumNonNegative(m.arrivals, ArrivalWeight(p));
    SumNonNegative(m.calls, CallWeight(p));
    SumNonNegative(m.upstreams, UpstreamWeight(p));
    SumNonNegative(m.replies, ReplyWeight(p));
    SumNonNegative(m.running, RunningWeight(p));
    assert NonNegative(QueueWeight(p)) by {
      forall s ensures QueueWeight(p)(s) >= 0 { SumNonNegative(s.queue, WorkWeight(p)); }
    }
    SumNonNegative(m.replicas, QueueWeight(p));
  }

  lemma {:induction false} StepsUseUpTrees(p: Spec, states: seq<Machine>, steps: seq<Step>)
    requires Run(p, states, steps)
    ensures Left(p, Final(states)) + |steps| <= Left(p, states[0])
    decreases |steps|
  {
    if steps != [] {
      RunPrefix(p, states, steps);
      StepsUseUpTrees(p, states[..|steps|], steps[..|steps| - 1]);
      EveryRunOnPlan(p, states[..|steps|], steps[..|steps| - 1]);
      NextShrinks(p, Final(states[..|steps|]), steps[|steps| - 1]);
    }
  }

  /** The size of a request's call tree, in steps. */
  ghost function TreeWeight(p: Spec): Hop -> int
  {
    (h: Hop) => if Checked(p) && h.api in p.entry then 6 * |Plan(p, h.api)| + 1 else 0
  }

  /** Termination. A run takes at most six steps for each endpoint in the call trees of its requests, one more for each
      request, and one for each initial pull: the cycle check is what makes that a number. */
  lemma EveryRunEnds(p: Spec, states: seq<Machine>, steps: seq<Step>)
    requires Run(p, states, steps)
    ensures |steps| <= Sum(states[0].arrivals, TreeWeight(p)) + |states[0].initialPulls|
  {
    StepsUseUpTrees(p, states, steps);
    LeftNonNegative(p, Final(states));
    var m := states[0];
    SumZero(m.replicas, QueueWeight(p));
    forall i | 0 <= i < |m.arrivals| ensures ArrivalWeight(p)(m.arrivals[i]) == TreeWeight(p)(m.arrivals[i]) {
      EnteringHasAll(p, m.arrivals[i]);
    }
    SumSame(m.arrivals, ArrivalWeight(p), TreeWeight(p));
  }
}
