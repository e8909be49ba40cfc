/** Slots of microservice replicas. A replica never runs more services than it has slots and lets work wait only while
    all are taken. Under JBSQ the requests it holds and the pulls it has outstanding never exceed `n`, and reach `n`
    again after every completion; under centralized pulls its slots are tokens that are never lost or forged. */
module PullBounds {
  import opened Domain
  import opened Sums
  import opened CallGraphs
  import opened Replicas
  import opened Traversal
  import opened CallRuns
  import opened CallTrees

  function HostedAt(a: Address): Service -> int
  {
    (s: Service) => if s.host == a then 1 else 0
  }

  function SentTo(a: Address): ReturnMsg -> int
  {
    (c: ReturnMsg) => if c.to == a then 1 else 0
  }

  function Is(r: nat): nat -> int
  {
    (x: nat) => if x == r then 1 else 0
  }

  function IsUpstream(): Work -> int
  {
    (w: Work) => if w.Upstream? then 1 else 0
  }

  lemma {:induction false} UpstreamIsSum(queue: seq<Work>)
    ensures UpstreamQueued(queue) == Sum(queue, IsUpstream())
  {
    if queue != [] {
      UpstreamIsSum(queue[..|queue| - 1]);
    }
  }

  /** Pulls that wait for a call, and the calls they have got that are still on the way. */
  ghost function Outstanding(m: Machine, r: nat): int
    requires r < |m.replicas|
  {
    Sum(m.pulls, Is(r)) + Sum(m.upstreams, SentTo(m.replicas[r].cfg.at))
  }

  ghost predicate Within(v: ReplicaState, starts: int, outstanding: int)
  {
    && v.inFlight <= v.cfg.maxConcurrency && (v.queue != [] ==> v.inFlight == v.cfg.maxConcurrency)
    && (UsesJbsq(v.cfg) ==>
          v.pendingPulls == outstanding && JbsqOccupancy(v) + v.pendingPulls <= v.cfg.jbsqN.value)
    && (v.cfg.pulls && v.cfg.jbsqN.None? ==>
          starts + outstanding + v.inFlight == v.cfg.maxConcurrency && UpstreamQueued(v.queue) == 0)
  }

  /** A request that comes to be served holds a slot to release exactly when the replica has pulled it. */
  ghost predicate Slotted(c: ReplicaConfig, w: Work)
  {
    w.Upstream? ==> (w.hop.slotRelease.Some? <==> c.pulls)
  }

  ghost predicate SlotsAt(m: Machine, r: nat)
  {
    r < |m.replicas| &&
    var v := m.replicas[r];
    && v.inFlight == Sum(m.running, HostedAt(v.cfg.at))
    && Within(v, Sum(m.initialPulls, Is(r)), Outstanding(m, r))
    && (!v.cfg.pulls ==> Sum(m.pulls, Is(r)) == 0)
    && (forall i :: 0 <= i < |v.queue| ==> Slotted(v.cfg, v.queue[i]))
    && (forall i :: 0 <= i < |m.upstreams| && m.upstreams[i].to == v.cfg.at ==> Slotted(v.cfg, Upstream(m.upstreams[i].hop)))
    && (forall i :: 0 <= i < |m.running| && m.running[i].host == v.cfg.at ==> Slotted(v.cfg, Upstream(m.running[i].hop)))
  }

  ghost predicate SlotsOk(m: Machine)
  {
    && (forall r: nat :: r < |m.replicas| ==> SlotsAt(m, r))
    && (forall r, q :: 0 <= r < q < |m.replicas| ==> m.replicas[r].cfg.at != m.replicas[q].cfg.at)
    && (forall i :: 0 <= i < |m.calls| ==> m.calls[i].hop.slotRelease.None?)
    && (forall i :: 0 <= i < |m.arrivals| ==> m.arrivals[i].slotRelease.None?)
  }

  // Handlers

  /** Everything queued to be served has a service time. */
  ghost predicate Timed(g: Graph, queue: seq<Work>)
  {
    forall i :: 0 <= i < |queue| && queue[i].Upstream? ==> queue[i].hop.endpoint in g.timed
  }

  /** What a handler does to the books of its replica: services begun against slots taken. */
  ghost predicate Books(v: ReplicaState, fx: Effects, ended: nat)
  {
    && fx.replica.cfg == v.cfg && (!v.cfg.pulls ==> fx.out.pulls == 0)
    && |fx.out.begun| + v.inFlight == fx.replica.inFlight + ended
    && (forall i :: 0 <= i < |fx.out.begun| ==>
          fx.out.begun[i].host == v.cfg.at && Slotted(v.cfg, Upstream(fx.out.begun[i].hop)))
    && (forall i :: 0 <= i < |fx.replica.queue| ==> Slotted(v.cfg, fx.replica.queue[i]))
  }

  lemma AdvanceBooks(v: ReplicaState, fx: Effects, g: Graph, hop: Hop, now: Time, ended: nat)
    requires Books(v, fx, ended)
    ensures var r := Advance(fx, g, hop, now);
            Books(v, r, ended) && r.replica == fx.replica && r.out.pulls == fx.out.pulls && r.out.audit == fx.out.audit
  {
  }

  lemma ResumeBooks(v: ReplicaState, fx: Effects, g: Graph, hop: Hop, now: Time, ended: nat)
    requires Books(v, fx, ended)
    ensures var r := HandleReturn(fx, g, hop, now);
            Books(v, r, ended) && r.replica == fx.replica && r.out.pulls == fx.out.pulls && r.out.audit == fx.out.audit
  {
  }

  /** Draining fills the free slot, or empties the queue, and moves requests only from the queue into service. */
  ghost predicate Drained(v: ReplicaState, fx: Effects, r: Effects, ended: nat)
  {
    && Books(v, r, ended) && r.out.pulls == fx.out.pulls && r.out.audit == fx.out.audit
    && r.replica.pendingPulls == fx.replica.pendingPulls
    && r.replica.inFlight <= v.cfg.maxConcurrency
    && (r.replica.queue != [] ==> r.replica.inFlight == v.cfg.maxConcurrency)
    && JbsqOccupancy(r.replica) == JbsqOccupancy(fx.replica)
    && UpstreamQueued(r.replica.queue) <= UpstreamQueued(fx.replica.queue)
  }

  lemma PopUpstream(queue: seq<Work>)
    requires queue != []
    ensures UpstreamQueued(queue) == UpstreamQueued(queue[1..]) + IsUpstream()(queue[0])
  {
    UpstreamIsSum(queue);
    UpstreamIsSum(queue[1..]);
    SumRemove(queue, 0, IsUpstream());
    assert RemoveAt(queue, 0) == queue[1..];
  }

  lemma {:induction false} DrainBooks(v: ReplicaState, fx: Effects, g: Graph, duration: nat, now: Time, ended: nat)
    requires Books(v, fx, ended) && Timed(g, fx.replica.queue)
    requires fx.replica.inFlight <= v.cfg.maxConcurrency
    requires |fx.replica.queue| <= 1 || fx.replica.inFlight + 1 >= v.cfg.maxConcurrency
    ensures Drained(v, fx, DrainQueue(fx, g, duration, now), ended)
    decreases |fx.replica.queue|
  {
    var s := fx.replica;
    if s.queue != [] && s.inFlight < s.cfg.maxConcurrency {
      PopUpstream(s.queue);
      var popped := s.(queue := s.queue[1..]);
      match s.queue[0]
      case Upstream(hop) => assert hop.endpoint in g.timed;
      case DownstreamReturn(hop) =>
        var fx0 := fx.(replica := popped);
        assert Books(v, fx0, ended);
        ResumeBooks(v, fx0, g, hop, now, ended);
        DrainBooks(v, HandleReturn(fx0, g, hop, now), g, duration, now, ended);
    }
  }

  lemma {:induction false} RefillBooks(v: ReplicaState, fx: Effects, ended: nat)
    requires Books(v, fx, ended) && UsesJbsq(v.cfg) && JbsqOccupancy(fx.replica) + fx.replica.pendingPulls <= v.cfg.jbsqN.value
    ensures var r := TryJbsqPullUntilFull(fx);
            && Books(v, r, ended) && r.replica.inFlight == fx.replica.inFlight && r.replica.queue == fx.replica.queue
            && r.out.pulls - fx.out.pulls == r.replica.pendingPulls - fx.replica.pendingPulls
            && JbsqOccupancy(r.replica) + r.replica.pendingPulls == v.cfg.jbsqN.value
    decreases v.cfg.jbsqN.value - fx.replica.pendingPulls
  {
    if JbsqCanPull(fx.replica) {
      RefillBooks(v, TryJbsqPull(fx), ended);
    }
  }

  lemma EnqueueBooks(v: ReplicaState, g: Graph, work: Work)
    requires Timed(g, v.queue) && (work.Upstream? ==> work.hop.endpoint in g.timed)
    requires Slotted(v.cfg, work) && forall i :: 0 <= i < |v.queue| ==> Slotted(v.cfg, v.queue[i])
    ensures var q := Enqueue(v.queue, work, v.cfg.edf);
            && |q| == |v.queue| + 1 && Timed(g, q) && (forall i :: 0 <= i < |q| ==> Slotted(v.cfg, q[i]))
            && UpstreamQueued(q) == UpstreamQueued(v.queue) + IsUpstream()(work)
  {
    UpstreamIsSum(v.queue);
    UpstreamIsSum(Enqueue(v.queue, work, v.cfg.edf));
    SumEnqueue(v.queue, work, v.cfg.edf, IsUpstream());
  }

  ghost predicate Comes(v: ReplicaState, g: Graph, work: Work, starts: int, outstanding: int)
  {
    && Within(v, starts, outstanding) && Timed(g, v.queue) && (work.Upstream? ==> work.hop.endpoint in g.timed)
    && Slotted(v.cfg, work) && (forall i :: 0 <= i < |v.queue| ==> Slotted(v.cfg, v.queue[i]))
    && (v.cfg.pulls && work.Upstream? ==> starts >= 0 && outstanding > 0)
  }

  lemma InputJbsq(v: ReplicaState, g: Graph, work: Work, duration: nat, now: Time, starts: int, outstanding: int)
    requires Comes(v, g, work, starts, outstanding) && UsesJbsq(v.cfg) && work.Upstream?
    ensures var r := Input(v, g, work, duration, now);
            Books(v, r, 0) && r.out.pulls == 0 && Within(r.replica, starts, outstanding - 1)
  {
    EnqueueBooks(v, g, work);
    var event := PullArrived(v.cfg.at, UpstreamQueued(v.queue), v.inFlight, v.pendingPulls, v.cfg.jbsqN.value);
    var queued := v.(pendingPulls := SaturatingSub(v.pendingPulls, 1), queue := Enqueue(v.queue, work, v.cfg.edf));
    DrainBooks(v, Effects(queued, NOTHING.(audit := [event])), g, duration, now, 0);
  }

  lemma InputQueued(v: ReplicaState, g: Graph, work: Work, duration: nat, now: Time, starts: int, outstanding: int)
    requires Comes(v, g, work, starts, outstanding) && (work.Upstream? ==> !v.cfg.pulls)
    ensures var r := Input(v, g, work, duration, now);
            Books(v, r, 0) && r.out.pulls == 0
            && Within(r.replica, starts, if work.Upstream? then outstanding - 1 else outstanding)
  {
    EnqueueBooks(v, g, work);
    DrainBooks(v, Begin(v.(queue := Enqueue(v.queue, work, v.cfg.edf))), g, duration, now, 0);
  }

  /** A request that comes takes the place of the pull it answers. */
  lemma InputBooks(v: ReplicaState, g: Graph, work: Work, duration: nat, now: Time, starts: int, outstanding: int)
    requires Comes(v, g, work, starts, outstanding)
    ensures var r := Input(v, g, work, duration, now);
            Books(v, r, 0) && r.out.pulls == 0
            && Within(r.replica, starts, if work.Upstream? then outstanding - 1 else outstanding)
  {
    if work.Upstream? && UsesJbsq(v.cfg) {
      InputJbsq(v, g, work, duration, now, starts, outstanding);
    } else if !work.Upstream? || !v.cfg.pulls {
      InputQueued(v, g, work, duration, now, starts, outstanding);
    }
  }

  /** A completion offers its slot again, and a JBSQ replica pulls until it is full. */
  lemma CompleteBooks(v: ReplicaState, g: Graph, hop: Hop, duration: nat, now: Time, starts: int, outstanding: int)
    requires Within(v, starts, outstanding) && Timed(g, v.queue) && v.inFlight > 0
    requires Slotted(v.cfg, Upstream(hop)) && forall i :: 0 <= i < |v.queue| ==> Slotted(v.cfg, v.queue[i])
    ensures var r := Complete(v, g, hop, duration, now);
            && Books(v, r, 1) && Within(r.replica, starts, outstanding + r.out.pulls)
            && (UsesJbsq(v.cfg) ==> JbsqOccupancy(r.replica) + r.replica.pendingPulls == v.cfg.jbsqN.value)
  {
    var freed := Freed(v, hop);
    assert Books(v, freed, 1);
    AdvanceBooks(v, freed, g, Served(hop), now, 1);
    var advanced := Advance(freed, g, Served(hop), now);
    DrainBooks(v, advanced, g, duration, now, 1);
    if UsesJbsq(v.cfg) {
      RefillBooks(v, DrainQueue(advanced, g, duration, now), 1);
    }
  }

  lemma PullBooks(v: ReplicaState, starts: int, outstanding: int)
    requires Within(v, starts, outstanding) && forall i :: 0 <= i < |v.queue| ==> Slotted(v.cfg, v.queue[i])
    requires starts > 0 && outstanding >= 0
    ensures var r := RequestPull(v); Books(v, r, 0) && Within(r.replica, starts - 1, outstanding + r.out.pulls)
  {
  }

  // The machine

  lemma OutstandingNonNegative(m: Machine, r: nat)
    requires r < |m.replicas|
    ensures Sum(m.pulls, Is(r)) >= 0 && Sum(m.upstreams, SentTo(m.replicas[r].cfg.at)) >= 0 && Sum(m.initialPulls, Is(r)) >= 0
  {
    SumNonNegative(m.pulls, Is(r));
    SumNonNegative(m.upstreams, SentTo(m.replicas[r].cfg.at));
    SumNonNegative(m.initialPulls, Is(r));
  }

  /** A handler of replica `t` that keeps its books. `m0` is the machine without what the handler consumed. */
  lemma ReplicaSlots(m: Machine, m0: Machine, t: nat, fx: Effects, ended: nat, r: nat)
    requires SlotsOk(m) && r < |m.replicas| && t < |m0.replicas| && m0.replicas == m.replicas
    requires Books(m.replicas[t], fx, ended) && m0.pulls == m.pulls
    requires Sum(m0.running, HostedAt(m.replicas[r].cfg.at)) == m.replicas[r].inFlight - (if r == t then ended else 0)
    requires forall i :: 0 <= i < |m0.upstreams| ==> m0.upstreams[i] in m.upstreams
    requires forall i :: 0 <= i < |m0.running| ==> m0.running[i] in m.running
    requires if r == t then Within(fx.replica, Sum(m0.initialPulls, Is(r)), Outstanding(m0, r) + fx.out.pulls)
             else Sum(m0.initialPulls, Is(r)) == Sum(m.initialPulls, Is(r)) && Outstanding(m0, r) == Outstanding(m, r)
    ensures SlotsAt(AfterReplica(m0, t, fx), r)
  {
    assert SlotsAt(m, r);
    var a := m.replicas[r].cfg.at;
    assert r != t ==> m.replicas[t].cfg.at != a;
    SumConcat(m0.running, fx.out.begun, HostedAt(a));
    SumConcat(m0.pulls, Repeat(t, fx.out.pulls), Is(r));
    SumConstant(fx.out.begun, HostedAt(a), if r == t then 1 else 0);
    SumConstant(Repeat(t, fx.out.pulls), Is(r), if r == t then 1 else 0);
  }

  lemma PlanTimed(p: Spec, m: Machine, t: nat)
    requires OnPlan(p, m) && t < |m.replicas|
    ensures Timed(m.graph, m.replicas[t].queue)
  {
    forall i: nat | i < |m.replicas[t].queue| && m.replicas[t].queue[i].Upstream?
      ensures m.replicas[t].queue[i].hop.endpoint in m.graph.timed
    {
      assert WorkOk(p, m.graph, m.log, m.replicas[t].queue[i]);
    }
  }

  lemma UpstreamBooks(p: Spec, m: Machine, step: Step)
    requires OnPlan(p, m) && SlotsOk(m) && Enabled(m, step) && step.DeliverUpstream?
    ensures var DeliverUpstream(i, t, duration, now) := step;
            var fx := Input(m.replicas[t], m.graph, Upstream(m.upstreams[i].hop), duration, now);
            && Books(m.replicas[t], fx, 0) && fx.out.pulls == 0
            && Within(fx.replica, Sum(m.initialPulls, Is(t)), Outstanding(m, t) - 1)
  {
    var DeliverUpstream(i, t, duration, now) := step;
    assert SlotsAt(m, t);
    assert Early(p, m.graph, m.log, m.upstreams[i].hop);
    PlanTimed(p, m, t);
    OutstandingNonNegative(m, t);
    SumAtLeast(m.upstreams, i, SentTo(m.replicas[t].cfg.at));
    InputBooks(m.replicas[t], m.graph, Upstream(m.upstreams[i].hop), duration, now,
               Sum(m.initialPulls, Is(t)), Outstanding(m, t));
  }

  lemma UpstreamSlots(p: Spec, m: Machine, step: Step, r: nat)
    requires OnPlan(p, m) && SlotsOk(m) && Enabled(m, step) && step.DeliverUpstream? && r < |m.replicas|
    ensures SlotsAt(Next(m, step), r)
  {
    UpstreamBooks(p, m, step);
    DeliveredSlots(m, step, r);
  }

  lemma DeliveredSlots(m: Machine, step: Step, r: nat)
    requires SlotsOk(m) && Enabled(m, step) && step.DeliverUpstream? && r < |m.replicas|
    requires var DeliverUpstream(i, t, duration, now) := step;
             var fx := Input(m.replicas[t], m.graph, Upstream(m.upstreams[i].hop), duration, now);
             && Books(m.replicas[t], fx, 0) && fx.out.pulls == 0
             && Within(fx.replica, Sum(m.initialPulls, Is(t)), Outstanding(m, t) - 1)
    ensures SlotsAt(Next(m, step), r)
  {
    var DeliverUpstream(i, t, duration, now) := step;
    assert SlotsAt(m, r);
    SumRemove(m.upstreams, i, SentTo(m.replicas[r].cfg.at));
    assert r != t ==> m.replicas[r].cfg.at != m.replicas[t].cfg.at;
    ReplicaSlots(m, m.(upstreams := RemoveAt(m.upstreams, i)), t,
                 Input(m.replicas[t], m.graph, Upstream(m.upstreams[i].hop), duration, now), 0, r);
  }

  lemma ReplyBooks(p: Spec, m: Machine, step: Step)
    requires OnPlan(p, m) && SlotsOk(m) && Enabled(m, step) && step.DeliverReply?
    ensures var DeliverReply(i, t, duration, now) := step;
            var fx := Input(m.replicas[t], m.graph, DownstreamReturn(m.replies[i].hop), duration, now);
            && Books(m.replicas[t], fx, 0) && fx.out.pulls == 0
            && Within(fx.replica, Sum(m.initialPulls, Is(t)), Outstanding(m, t))
  {
    var DeliverReply(i, t, duration, now) := step;
    assert SlotsAt(m, t);
    PlanTimed(p, m, t);
    InputBooks(m.replicas[t], m.graph, DownstreamReturn(m.replies[i].hop), duration, now,
               Sum(m.initialPulls, Is(t)), Outstanding(m, t));
  }

  lemma ReplySlots(p: Spec, m: Machine, step: Step, r: nat)
    requires OnPlan(p, m) && SlotsOk(m) && Enabled(m, step) && step.DeliverReply? && r < |m.replicas|
    ensures SlotsAt(Next(m, step), r)
  {
    ReplyBooks(p, m, step);
    RepliedSlots(m, step, r);
  }

  lemma RepliedSlots(m: Machine, step: Step, r: nat)
    requires SlotsOk(m) && Enabled(m, step) && step.DeliverReply? && r < |m.replicas|
    requires var DeliverReply(i, t, duration, now) := step;
             var fx := Input(m.replicas[t], m.graph, DownstreamReturn(m.replies[i].hop), duration, now);
             && Books(m.replicas[t], fx, 0) && fx.out.pulls == 0
             && Within(fx.replica, Sum(m.initialPulls, Is(t)), Outstanding(m, t))
    ensures SlotsAt(Next(m, step), r)
  {
    var DeliverReply(i, t, duration, now) := step;
    assert SlotsAt(m, r);
    ReplicaSlots(m, m.(replies := RemoveAt(m.replies, i)), t,
                 Input(m.replicas[t], m.graph, DownstreamReturn(m.replies[i].hop), duration, now), 0, r);
  }

  /** What a completion leaves: its slot offered again, and a JBSQ replica at its bound. */
  lemma FinishBooks(p: Spec, m: Machine, step: Step)
    requires OnPlan(p, m) && SlotsOk(m) && Enabled(m, step) && step.Finish?
    ensures var Finish(i, t, duration, now) := step;
            var fx := Complete(m.replicas[t], m.graph, m.running[i].hop, duration, now);
            && Books(m.replicas[t], fx, 1)
            && Within(fx.replica, Sum(m.initialPulls, Is(t)), Outstanding(m, t) + fx.out.pulls)
            && (UsesJbsq(m.replicas[t].cfg) ==>
                  JbsqOccupancy(fx.replica) + fx.replica.pendingPulls == m.replicas[t].cfg.jbsqN.value)
  {
    var Finish(i, t, duration, now) := step;
    assert SlotsAt(m, t);
    PlanTimed(p, m, t);
    SumAtLeast(m.running, i, HostedAt(m.replicas[t].cfg.at));
    CompleteBooks(m.replicas[t], m.graph, m.running[i].hop, duration, now, Sum(m.initialPulls, Is(t)), Outstanding(m, t));
  }

  lemma FinishSlots(p: Spec, m: Machine, step: Step, r: nat)
    requires OnPlan(p, m) && SlotsOk(m) && Enabled(m, step) && step.Finish? && r < |m.replicas|
    ensures SlotsAt(Next(m, step), r)
  {
    FinishBooks(p, m, step);
    FinishedSlots(m, step, r);
  }

  lemma FinishedSlots(m: Machine, step: Step, r: nat)
    requires SlotsOk(m) && Enabled(m, step) && step.Finish? && r < |m.replicas|
    requires var Finish(i, t, duration, now) := step;
             var fx := Complete(m.replicas[t], m.graph, m.running[i].hop, duration, now);
             && Books(m.replicas[t], fx, 1)
             && Within(fx.replica, Sum(m.initialPulls, Is(t)), Outstanding(m, t) + fx.out.pulls)
    ensures SlotsAt(Next(m, step), r)
  {
    var Finish(i, t, duration, now) := step;
    assert SlotsAt(m, r);
    SumRemove(m.running, i, HostedAt(m.replicas[r].cfg.at));
    assert r != t ==> m.replicas[r].cfg.at != m.replicas[t].cfg.at;
    ReplicaSlots(m, m.(running := RemoveAt(m.running, i), log := m.log + [VisitOf(m.running[i].hop)]), t,
                 Complete(m.replicas[t], m.graph, m.running[i].hop, duration, now), 1, r);
  }

  lemma AskSlots(m: Machine, i: nat, r: nat)
    requires SlotsOk(m) && Enabled(m, AskPull(i)) && r < |m.replicas|
    ensures SlotsAt(Next(m, AskPull(i)), r)
  {
    var t := m.initialPulls[i];
    assert SlotsAt(m, r) && SlotsAt(m, t);
    SumRemove(m.initialPulls, i, Is(r));
    SumAtLeast(m.initialPulls, i, Is(t));
    OutstandingNonNegative(m, t);
    PullBooks(m.replicas[t], Sum(m.initialPulls, Is(t)), Outstanding(m, t));
    ReplicaSlots(m, m.(initialPulls := RemoveAt(m.initialPulls, i)), t, RequestPull(m.replicas[t]), 0, r);
  }

  lemma SentOn(m: Machine, m0: Machine, t: nat, hop: Hop, r: nat)
    requires SlotsOk(m) && t < |m.replicas| && r < |m.replicas| && m0.replicas == m.replicas
    requires m0.running == m.running && m0.initialPulls == m.initialPulls
    requires m0.upstreams == m.upstreams + [ReturnMsg(m.replicas[t].cfg.at, hop)]
    requires hop.slotRelease.Some? <==> m.replicas[t].cfg.pulls
    requires Sum(m0.pulls, Is(r)) == Sum(m.pulls, Is(r)) - (if r == t && m.replicas[t].cfg.pulls then 1 else 0)
    ensures SlotsAt(m0, r)
  {
    assert SlotsAt(m, r);
    assert r != t ==> m.replicas[t].cfg.at != m.replicas[r].cfg.at;
    SumAppend(m.upstreams, ReturnMsg(m.replicas[t].cfg.at, hop), SentTo(m.replicas[r].cfg.at));
  }

  lemma RoutingSlots(m: Machine, step: Step, r: nat)
    requires SlotsOk(m) && Enabled(m, step) && (step.Enter? || step.Push? || step.Hand?) && r < |m.replicas|
    ensures SlotsAt(Next(m, step), r)
  {
    match step
    case Enter(i, t) => SentOn(m, Next(m, step), t, m.arrivals[i], r);
    case Push(i, t) => SentOn(m, Next(m, step), t, Pushed(m.calls[i].hop, m.replicas[t].cfg.at), r);
    case Hand(i, j) =>
      var t := m.pulls[j];
      assert SlotsAt(m, t);
      SumNonNegative(m.pulls, Is(t));
      SumAtLeast(m.pulls, j, Is(t));
      SumRemove(m.pulls, j, Is(r));
      SentOn(m, Next(m, step), t, Handed(m.calls[i].hop, m.replicas[t].cfg.at), r);
  }

  // Calls hold no slot.

  ghost predicate CallsFree(fx: Effects)
  {
    forall i :: 0 <= i < |fx.out.calls| ==> fx.out.calls[i].hop.slotRelease.None?
  }

  lemma {:induction false} DrainCallsFree(fx: Effects, g: Graph, duration: nat, now: Time)
    requires CallsFree(fx)
    ensures CallsFree(DrainQueue(fx, g, duration, now)) && DrainQueue(fx, g, duration, now).replica.cfg == fx.replica.cfg
    decreases |fx.replica.queue|
  {
    var s := fx.replica;
    if s.queue != [] && s.inFlight < s.cfg.maxConcurrency && s.queue[0].DownstreamReturn? {
      var fx0 := fx.(replica := s.(queue := s.queue[1..]));
      ResumeKeepsQueue(fx0, g, s.queue[0].hop, now);
      DrainCallsFree(HandleReturn(fx0, g, s.queue[0].hop, now), g, duration, now);
    }
  }

  lemma InputCallsFree(s: ReplicaState, g: Graph, work: Work, duration: nat, now: Time)
    ensures CallsFree(Input(s, g, work, duration, now)) && Input(s, g, work, duration, now).replica.cfg == s.cfg
  {
    if work.Upstream? && work.hop.slotRelease.Some? {
      if UsesJbsq(s.cfg) {
        var event := PullArrived(s.cfg.at, UpstreamQueued(s.queue), s.inFlight, s.pendingPulls, s.cfg.jbsqN.value);
        var queued := s.(pendingPulls := SaturatingSub(s.pendingPulls, 1), queue := Enqueue(s.queue, work, s.cfg.edf));
        DrainCallsFree(Effects(queued, NOTHING.(audit := [event])), g, duration, now);
      }
    } else {
      DrainCallsFree(Begin(s.(queue := Enqueue(s.queue, work, s.cfg.edf))), g, duration, now);
    }
  }

  lemma CompleteCallsFree(s: ReplicaState, g: Graph, hop: Hop, duration: nat, now: Time)
    ensures CallsFree(Complete(s, g, hop, duration, now)) && Complete(s, g, hop, duration, now).replica.cfg == s.cfg
  {
    var advanced := Advance(Freed(s, hop), g, Served(hop), now);
    DrainCallsFree(advanced, g, duration, now);
    RefillSendsOnlyPulls(DrainQueue(advanced, g, duration, now));
  }

  ghost predicate Same(m: Machine, n: Machine)
  {
    && |n.replicas| == |m.replicas|
    && (forall r :: 0 <= r < |m.replicas| ==> n.replicas[r].cfg == m.replicas[r].cfg)
    && (forall i :: 0 <= i < |n.calls| ==> n.calls[i].hop.slotRelease.None?)
    && (forall i :: 0 <= i < |n.arrivals| ==> n.arrivals[i].slotRelease.None?)
  }

  lemma NextSame(m: Machine, step: Step)
    requires SlotsOk(m) && Enabled(m, step)
    ensures Same(m, Next(m, step))
  {
    match step
    case DeliverUpstream(i, t, duration, now) =>
      InputCallsFree(m.replicas[t], m.graph, Upstream(m.upstreams[i].hop), duration, now);
    case DeliverReply(i, t, duration, now) =>
      InputCallsFree(m.replicas[t], m.graph, DownstreamReturn(m.replies[i].hop), duration, now);
    case Finish(i, t, duration, now) => CompleteCallsFree(m.replicas[t], m.graph, m.running[i].hop, duration, now);
    case _ =>
  }

  lemma NextSlotsAt(p: Spec, m: Machine, step: Step, r: nat)
    requires OnPlan(p, m) && SlotsOk(m) && Enabled(m, step) && r < |m.replicas|
    ensures SlotsAt(Next(m, step), r)
  {
    match step
    case DeliverUpstream(_, _, _, _) => UpstreamSlots(p, m, step, r);
    case DeliverReply(_, _, _, _) => ReplySlots(p, m, step, r);
    case Finish(_, _, _, _) => FinishSlots(p, m, step, r);
    case AskPull(i) => AskSlots(m, i, r);
    case _ => RoutingSlots(m, step, r);
  }

  lemma NextKeepsSlots(p: Spec, m: Machine, step: Step)
    requires OnPlan(p, m) && SlotsOk(m) && Enabled(m, step)
    ensures SlotsOk(Next(m, step))
  {
    NextSame(m, step);
    forall r: nat | r < |Next(m, step).replicas| ensures SlotsAt(Next(m, step), r) {
      NextSlotsAt(p, m, step, r);
    }
  }

  // Whole runs

  /** Nothing holds a slot yet, and a replica that pulls without a bound has one initial pull for each slot. */
  ghost predicate Unpulled(m: Machine)
  {
    && (forall i :: 0 <= i < |m.arrivals| ==> m.arrivals[i].slotRelease.None?)
    && (forall r :: 0 <= r < |m.replicas| && m.replicas[r].cfg.pulls && m.replicas[r].cfg.jbsqN.None? ==>
          Sum(m.initialPulls, Is(r)) == m.replicas[r].cfg.maxConcurrency)
  }

  lemma InitialSlots(p: Spec, m: Machine)
    requires Initial(p, m) && Unpulled(m)
    ensures SlotsOk(m)
  {
  }

  lemma {:induction false} EveryRunKeepsSlots(p: Spec, states: seq<Machine>, steps: seq<Step>)
    requires Run(p, states, steps) && Unpulled(states[0])
    ensures SlotsOk(Final(states))
    decreases |steps|
  {
    if steps == [] {
      InitialSlots(p, states[0]);
    } else {
      RunPrefix(p, states, steps);
      EveryRunKeepsSlots(p, states[..|steps|], steps[..|steps| - 1]);
      EveryRunOnPlan(p, states[..|steps|], steps[..|steps| - 1]);
      NextKeepsSlots(p, Final(states[..|steps|]), steps[|steps| - 1]);
    }
  }

  /** The JBSQ bound: the requests a replica holds and the pulls it has outstanding are never more than `n`; and no
      replica of any kind runs more services than it has slots, or lets work wait while one is free. */
  lemma JbsqBound(p: Spec, states: seq<Machine>, steps: seq<Step>, r: nat)
    requires Run(p, states, steps) && Unpulled(states[0]) && r < |Final(states).replicas|
    ensures var v := Final(states).replicas[r];
            && (UsesJbsq(v.cfg) ==> UpstreamQueued(v.queue) + v.inFlight + v.pendingPulls <= v.cfg.jbsqN.value)
            && v.inFlight <= v.cfg.maxConcurrency && (v.queue != [] ==> v.inFlight == v.cfg.maxConcurrency)
  {
    EveryRunKeepsSlots(p, states, steps);
    assert SlotsAt(Final(states), r);
  }

  /** The refill after a completion leaves a JBSQ replica exactly at its bound. */
  lemma JbsqRefilled(p: Spec, states: seq<Machine>, steps: seq<Step>, step: Step)
    requires Run(p, states, steps) && Unpulled(states[0]) && Enabled(Final(states), step) && step.Finish?
    requires UsesJbsq(Final(states).replicas[step.r].cfg)
    ensures var v := Next(Final(states), step).replicas[step.r];
            v.cfg.jbsqN.Some? && UpstreamQueued(v.queue) + v.inFlight + v.pendingPulls == v.cfg.jbsqN.value
  {
    EveryRunKeepsSlots(p, states, steps);
    EveryRunOnPlan(p, states, steps);
    FinishBooks(p, Final(states), step);
  }
}
