/** The queue-discipline audit of the shared balancers: it replays enqueues and dispatches per balancer, and accepts only
    traces in which every dispatch takes the head of the replayed queue. */
module QueueAudit {
  import opened Domain
  import opened Sums
  import opened QueueReplays
  import R = Replicas
  import D = Downstreams

  datatype LbEvent = LbEvent(lb: nat, event: D.QueueEvent)

  /** A first-come balancer or one by deadline. */
  function By(edf: bool): Discipline
  {
    if edf then ByDeadline else Fifo
  }

  function OpOf(e: D.QueueEvent): QueueOp<nat>
  {
    match e
    case CallEnqueued(id, d) => Insert(id, d)
    case CallDispatched(id, _) => Take(id)
  }

  function KeyedOp(e: LbEvent): Keyed<nat, nat>
  {
    Keyed(e.lb, OpOf(e.event))
  }

  function Ops(events: seq<LbEvent>): (ops: seq<Keyed<nat, nat>>)
    ensures |ops| == |events| && forall i :: 0 <= i < |events| ==> ops[i] == KeyedOp(events[i])
  {
    seq(|events|, i requires 0 <= i < |events| => KeyedOp(events[i]))
  }

  /** Coverage: a dispatch took one of several queued calls. */
  ghost predicate BacklogPop(events: seq<LbEvent>, k: nat, edf: bool)
    requires k < |events|
  {
    && events[k].event.CallDispatched?
    && (match Replay(Of(Ops(events[..k]), events[k].lb), By(edf)) case None => false case Some(q) => |q| > 1)
  }

  ghost predicate SawDispatch(events: seq<LbEvent>, n: nat)
  {
    exists k :: 0 <= k < n <= |events| && events[k].event.CallDispatched?
  }

  ghost predicate SawBacklog(events: seq<LbEvent>, n: nat, edf: bool)
  {
    exists k :: 0 <= k < n <= |events| && BacklogPop(events, k, edf)
  }

  ghost predicate Accepted(events: seq<LbEvent>, edf: bool)
  {
    && Emptied(Ops(events), By(edf))
    && SawDispatch(events, |events|) && (edf ==> SawBacklog(events, |events|, edf))
  }

  lemma OpsSplit(events: seq<LbEvent>, i: nat)
    requires i < |events|
    ensures Ops(events[..i + 1]) == Ops(events[..i]) + [KeyedOp(events[i])]
    ensures Ops(events) == Ops(events[..i]) + [KeyedOp(events[i])] + Ops(events[i + 1..])
  {
  }

  lemma EventReplays(queues: map<nat, seq<Queued<nat>>>, events: seq<LbEvent>, i: nat, edf: bool)
    requires i < |events| && Tells(queues, Ops(events[..i]), By(edf))
    ensures var lb := events[i].lb;
            match Replayed(GetQueue(queues, lb), OpOf(events[i].event), By(edf))
            case None => !Accepted(events, edf)
            case Some(q) => Tells(queues[lb := q], Ops(events[..i + 1]), By(edf))
    ensures BacklogPop(events, i, edf) <==> events[i].event.CallDispatched? && |GetQueue(queues, events[i].lb)| > 1
  {
    OpsSplit(events, i);
    var lb, e, before := events[i].lb, KeyedOp(events[i]), Ops(events[..i]);
    assert ReplaysTo(before, lb, By(edf), GetQueue(queues, lb));
    match Replayed(GetQueue(queues, lb), e.op, By(edf))
    case None => Refused(queues, before, e, By(edf), Ops(events[i + 1..]));
    case Some(q) => TellsNext(queues, before, e, By(edf), q);
  }

  lemma SawNext(events: seq<LbEvent>, i: nat, edf: bool)
    requires i < |events|
    ensures SawDispatch(events, i + 1) <==> SawDispatch(events, i) || events[i].event.CallDispatched?
    ensures SawBacklog(events, i + 1, edf) <==> SawBacklog(events, i, edf) || BacklogPop(events, i, edf)
  {
  }

  /** Accepts exactly the traces that replay to empty queues, dispatch something, and under EDF pop a backlog. */
  method ValidateQueueDiscipline(events: seq<LbEvent>, edf: bool) returns (ok: bool)
    ensures ok <==> Accepted(events, edf)
  {
    var queues: map<nat, seq<Queued<nat>>> := map[];
    var sawDispatch, sawBacklogPop := false, false;
    var i := 0;
    while i < |events|
      invariant i <= |events| && Tells(queues, Ops(events[..i]), By(edf))
      invariant sawDispatch == SawDispatch(events, i) && sawBacklogPop == SawBacklog(events, i, edf)
    {
      var lb, event := events[i].lb, events[i].event;
      EventReplays(queues, events, i, edf);
      SawNext(events, i, edf);
      var after := ReplayOp(GetQueue(queues, lb), OpOf(event), By(edf));
      if after.None? {
        return false;
      }
      if event.CallDispatched? {
        sawDispatch := true;
        if |GetQueue(queues, lb)| > 1 {
          sawBacklogPop := true;
        }
      }
      queues := queues[lb := after.value];
      i := i + 1;
    }
    assert events[..i] == events;
    TellsEmptied(queues, Ops(events), By(edf));
    ok := AllEmpty(queues);
    ok := ok && sawDispatch && (!edf || sawBacklogPop);
  }

  /** A dispatch that the EDF audit accepts is of the pending call with the earliest deadline, and among those with that
      deadline of the one that was enqueued first. */
  lemma AcceptedDispatchIsEarliest(events: seq<LbEvent>, k: nat)
    requires Accepted(events, true) && k < |events| && events[k].event.CallDispatched?
    ensures TakesLeast(Of(Ops(events[..k]), events[k].lb), events[k].event.requestId)
  {
    assert ReplaysTo(Ops(events), events[k].lb, ByDeadline, []);
    assert Ops(events)[..k] == Ops(events[..k]);
    EveryTakeIsLeast(Ops(events), k);
  }

  // Completeness: the balancer's own traces

  function Calls(queue: seq<R.OutboundCall>): (q: seq<Queued<nat>>)
    ensures |q| == |queue| && forall i :: 0 <= i < |q| ==> q[i] == Queued(queue[i].hop.requestId, queue[i].hop.deadline)
  {
    seq(|queue|, i requires 0 <= i < |queue| => Queued(queue[i].hop.requestId, queue[i].hop.deadline))
  }

  function OpsOf(log: seq<D.QueueEvent>): (ops: seq<QueueOp<nat>>)
    ensures |ops| == |log| && forall i :: 0 <= i < |log| ==> ops[i] == OpOf(log[i])
  {
    seq(|log|, i requires 0 <= i < |log| => OpOf(log[i]))
  }

  lemma OpsOfAppend(log: seq<D.QueueEvent>, e: D.QueueEvent, edf: bool)
    ensures Replay(OpsOf(log + [e]), By(edf))
         == if Replay(OpsOf(log), By(edf)).None? then None else Replayed(Replay(OpsOf(log), By(edf)).value, OpOf(e), By(edf))
  {
    assert OpsOf(log + [e]) == OpsOf(log) + [OpOf(e)];
    ReplayAppend(OpsOf(log), OpOf(e), By(edf));
  }

  /** The trace so far replays to the balancer's queue. */
  ghost predicate Logged(log: seq<D.QueueEvent>, b: D.BalancerState)
  {
    Replay(OpsOf(log), By(b.cfg.edf)) == Some(Calls(b.queue))
  }

  lemma InsertLogged(log: seq<D.QueueEvent>, b: D.BalancerState, call: R.OutboundCall)
    requires Logged(log, b)
    ensures Logged(log + [D.CallEnqueued(call.hop.requestId, call.hop.deadline)],
                   b.(queue := D.Insert(b.queue, call, b.cfg.edf), counts := D.Incremented(b.counts, call)))
  {
    OpsOfAppend(log, D.CallEnqueued(call.hop.requestId, call.hop.deadline), b.cfg.edf);
    assert QueuedDeadlines(Calls(b.queue)) == D.CallDeadlines(b.queue);
    assert Calls(D.Insert(b.queue, call, b.cfg.edf))
        == Added(Calls(b.queue), Queued(call.hop.requestId, call.hop.deadline), By(b.cfg.edf));
  }

  lemma HeadLogged(log: seq<D.QueueEvent>, fx: D.Outcome, server: nat)
    requires fx.balancer.Valid() && server < |fx.balancer.localInflight| && fx.balancer.queue != [] && fx.balancer.cfg.pullQueue
    requires Logged(log + fx.audit, fx.balancer)
    ensures Logged(log + D.DispatchHead(fx, server).audit, D.DispatchHead(fx, server).balancer)
  {
    var call := fx.balancer.queue[0];
    var event := D.CallDispatched(call.hop.requestId, call.hop.deadline);
    OpsOfAppend(log + fx.audit, event, fx.balancer.cfg.edf);
    assert log + (fx.audit + [event]) == (log + fx.audit) + [event];
    assert RemoveAt(Calls(fx.balancer.queue), 0) == Calls(fx.balancer.queue[1..]);
  }

  lemma {:induction false} WaitingLogged(log: seq<D.QueueEvent>, fx: D.Outcome)
    requires fx.balancer.Valid() && fx.balancer.cfg.pullQueue && Logged(log + fx.audit, fx.balancer)
    ensures Logged(log + D.DispatchWaiting(fx).audit, D.DispatchWaiting(fx).balancer)
    decreases |fx.balancer.waiting|
  {
    var b := fx.balancer;
    if b.waiting != [] && b.queue != [] {
      var popped := fx.(balancer := b.(waiting := b.waiting[1..]));
      HeadLogged(log, popped, b.waiting[0]);
      WaitingLogged(log, D.DispatchHead(popped, b.waiting[0]));
    }
  }

  datatype Op = Call(call: R.OutboundCall, pick: nat) | PullFor(server: nat)

  ghost predicate CanDo(b: D.BalancerState, op: Op)
  {
    b.Valid() && match op
    case Call(_, pick) => pick < |b.cfg.servers|
    case PullFor(server) => server < |b.localInflight|
  }

  function Do(b: D.BalancerState, op: Op): D.Outcome
    requires CanDo(b, op)
  {
    match op
    case Call(call, pick) => D.Outbound(b, call, pick)
    case PullFor(server) => D.Pull(b, server)
  }

  lemma NextReplays(log: seq<D.QueueEvent>, b: D.BalancerState, op: Op)
    requires CanDo(b, op) && b.cfg.pullQueue && Logged(log, b) && D.Good(b)
    ensures Logged(log + Do(b, op).audit, Do(b, op).balancer) && D.Good(Do(b, op).balancer)
  {
    assert log + [] == log;
    match op {
      case Call(call, pick) =>
        D.OutboundGood(b, call, pick);
        if call.target == b.cfg.target {
          InsertLogged(log, b, call);
          WaitingLogged(log, D.Outcome(b.(queue := D.Insert(b.queue, call, b.cfg.edf), counts := D.Incremented(b.counts, call)), [],
                                     [D.CallEnqueued(call.hop.requestId, call.hop.deadline)]));
        }
      case PullFor(server) =>
        D.PullGood(b, server);
        if b.queue != [] {
          HeadLogged(log, D.Unsent(b), server);
        }
    }
  }

  /** A balancer from its construction on: its states, and the trace up to each. */
  ghost predicate Run(states: seq<D.BalancerState>, logs: seq<seq<D.QueueEvent>>, ops: seq<Op>)
  {
    && |states| == |logs| == |ops| + 1
    && states[0].queue == [] && states[0].waiting == [] && states[0].counts == map[] && states[0].cfg.pullQueue && logs[0] == []
    && forall i :: 0 <= i < |ops| ==>
         CanDo(states[i], ops[i])
         && states[i + 1] == Do(states[i], ops[i]).balancer && logs[i + 1] == logs[i] + Do(states[i], ops[i]).audit
  }

  /** Whatever calls and pulls come, the balancer's trace replays to its queue, so that no dispatch is ever out of order;
      its counts per caller stay exact, and no call and server wait side by side. */
  lemma {:induction false} EveryRunReplays(states: seq<D.BalancerState>, logs: seq<seq<D.QueueEvent>>, ops: seq<Op>, k: nat)
    requires Run(states, logs, ops) && k <= |ops|
    ensures Logged(logs[k], states[k]) && D.Good(states[k]) && states[k].cfg.pullQueue
  {
    if k > 0 {
      EveryRunReplays(states, logs, ops, k - 1);
      NextReplays(logs[k - 1], states[k - 1], ops[k - 1]);
    }
  }
}
