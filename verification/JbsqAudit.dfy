/** The JBSQ audit, and why it accepts every run: a pull is sent only below the bound, and a request that arrives fits
    under it. */
module JbsqAudit {
  import opened Domain
  import opened Sums
  import opened CallGraphs
  import opened Replicas
  import opened Traversal
  import opened CallRuns
  import opened CallTrees
  import PullBounds

  ghost predicate Lawful(e: JbsqEvent)
  {
    match e
    case PullSent(_, occupancy, pending, n) => occupancy + pending < n
    case PullArrived(_, queue, inFlight, _, n) => queue + inFlight + 1 <= n
  }

  class MsJbsqAudit {
    var events: seq<JbsqEvent>

    constructor ()
      ensures events == []
    {
      events := [];
    }

    method Record(e: JbsqEvent)
      modifies this
      ensures events == old(events) + [e]
    {
      events := events + [e];
    }

    /** Rejects a trace without events, and one with an event over the bound. The reconstructed state per replica
        (queued, in flight, pending) takes no part in the verdict. */
    method Validate() returns (ok: bool)
      ensures ok <==> events != [] && forall i :: 0 <= i < |events| ==> Lawful(events[i])
    {
      if events == [] {
        return false;
      }
      var state: map<Address, (nat, nat, nat)> := map[];
      for i := 0 to |events|
        invariant forall j :: 0 <= j < i ==> Lawful(events[j])
      {
        match events[i] {
          case PullSent(host, occupancy, pending, n) =>
            if occupancy + pending >= n {
              assert !Lawful(events[i]);
              return false;
            }
            var entry := if host in state then state[host] else (0, 0, 0);
            state := state[host := (entry.0, entry.1, entry.2 + 1)];
          case PullArrived(host, queue, inFlight, pending, n) =>
            if queue + inFlight + 1 > n {
              assert !Lawful(events[i]);
              return false;
            }
            state := state[host := (queue + 1, inFlight, SaturatingSub(pending, 1))];
        }
      }
      ok := true;
    }
  }

  ghost predicate AllLawful(events: seq<JbsqEvent>)
  {
    forall i :: 0 <= i < |events| ==> Lawful(events[i])
  }

  lemma {:induction false} DrainAudit(fx: Effects, g: Graph, duration: nat, now: Time)
    ensures DrainQueue(fx, g, duration, now).out.audit == fx.out.audit
    decreases |fx.replica.queue|
  {
    var s := fx.replica;
    if s.queue != [] && s.inFlight < s.cfg.maxConcurrency && s.queue[0].DownstreamReturn? {
      var fx0 := fx.(replica := s.(queue := s.queue[1..]));
      ResumeKeepsQueue(fx0, g, s.queue[0].hop, now);
      DrainAudit(HandleReturn(fx0, g, s.queue[0].hop, now), g, duration, now);
    }
  }

  lemma {:induction false} RefillAudit(fx: Effects)
    requires AllLawful(fx.out.audit)
    ensures AllLawful(TryJbsqPullUntilFull(fx).out.audit)
    decreases if fx.replica.cfg.jbsqN.Some? then fx.replica.cfg.jbsqN.value - fx.replica.pendingPulls else 0
  {
    if JbsqCanPull(fx.replica) && UsesJbsq(fx.replica.cfg) {
      RefillAudit(TryJbsqPull(fx));
    }
  }

  lemma InputAudit(v: ReplicaState, g: Graph, work: Work, duration: nat, now: Time, starts: int, outstanding: int)
    requires PullBounds.Within(v, starts, outstanding) && PullBounds.Slotted(v.cfg, work)
    requires v.cfg.pulls && work.Upstream? ==> outstanding > 0
    ensures AllLawful(Input(v, g, work, duration, now).out.audit)
  {
    if work.Upstream? && work.hop.slotRelease.Some? {
      if UsesJbsq(v.cfg) {
        var event := PullArrived(v.cfg.at, UpstreamQueued(v.queue), v.inFlight, v.pendingPulls, v.cfg.jbsqN.value);
        var queued := v.(pendingPulls := SaturatingSub(v.pendingPulls, 1), queue := Enqueue(v.queue, work, v.cfg.edf));
        DrainAudit(Effects(queued, NOTHING.(audit := [event])), g, duration, now);
      }
    } else {
      DrainAudit(Begin(v.(queue := Enqueue(v.queue, work, v.cfg.edf))), g, duration, now);
    }
  }

  lemma CompleteAudit(v: ReplicaState, g: Graph, hop: Hop, duration: nat, now: Time)
    ensures AllLawful(Complete(v, g, hop, duration, now).out.audit)
  {
    var advanced := Advance(Freed(v, hop), g, Served(hop), now);
    DrainAudit(advanced, g, duration, now);
    RefillAudit(DrainQueue(advanced, g, duration, now));
  }

  lemma UpstreamAudit(m: Machine, step: Step)
    requires PullBounds.SlotsOk(m) && Enabled(m, step) && AllLawful(m.audit) && step.DeliverUpstream?
    ensures AllLawful(Next(m, step).audit)
  {
    var DeliverUpstream(i, t, duration, now) := step;
    assert PullBounds.SlotsAt(m, t);
    PullBounds.OutstandingNonNegative(m, t);
    SumAtLeast(m.upstreams, i, PullBounds.SentTo(m.replicas[t].cfg.at));
    InputAudit(m.replicas[t], m.graph, Upstream(m.upstreams[i].hop), duration, now,
               Sum(m.initialPulls, PullBounds.Is(t)), PullBounds.Outstanding(m, t));
  }

  lemma NextKeepsAudit(m: Machine, step: Step)
    requires PullBounds.SlotsOk(m) && Enabled(m, step) && AllLawful(m.audit)
    ensures AllLawful(Next(m, step).audit)
  {
    match step
    case DeliverUpstream(_, _, _, _) => UpstreamAudit(m, step);
    case DeliverReply(i, t, duration, now) =>
      assert PullBounds.SlotsAt(m, t);
      InputAudit(m.replicas[t], m.graph, DownstreamReturn(m.replies[i].hop), duration, now,
                 Sum(m.initialPulls, PullBounds.Is(t)), PullBounds.Outstanding(m, t));
    case Finish(i, t, duration, now) => CompleteAudit(m.replicas[t], m.graph, m.running[i].hop, duration, now);
    case _ =>
  }

  /** No run records an event that the audit rejects. */
  lemma {:induction false} EveryRunIsLawful(p: Spec, states: seq<Machine>, steps: seq<Step>)
    requires Run(p, states, steps) && PullBounds.Unpulled(states[0])
    ensures AllLawful(Final(states).audit)
    decreases |steps|
  {
    if steps != [] {
      RunPrefix(p, states, steps);
      EveryRunIsLawful(p, states[..|steps|], steps[..|steps| - 1]);
      PullBounds.EveryRunKeepsSlots(p, states[..|steps|], steps[..|steps| - 1]);
      NextKeepsAudit(Final(states[..|steps|]), steps[|steps| - 1]);
    }
  }
}
