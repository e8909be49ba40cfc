/** When runs of `lb` are bounded: exactly if no push balancer can choose a server that sheds. Otherwise some simulation
    of the topology, of one more request than the server has slots, has runs of any length. */
module Endless {
  import opened Domain
  import opened Sums
  import opened Clusters
  import B = Balancers
  import S = Servers
  import Occ = Occupancy
  import Wiring
  import Progress
  import Runs
  import Bounce

  // A balancer that keeps choosing one jammed server

  /** A task of balancer `b` is on its way to the jammed server at position `pick` of its list, or on its way back. */
  ghost predicate Looping(g: Cluster, b: nat, pick: nat)
  {
    && WellFormed(g) && !g.aborted && CanPick(g, b, pick) && g.balancers[b].cfg.policy == B.Push
    && (var s := g.balancers[b].cfg.serverIndices[pick];
        && s < |g.servers| && Bounce.Jammed(g.servers[s], g.now)
        && (Going(g, b, s) || Back(g, b)))
  }

  ghost predicate Going(g: Cluster, b: nat, s: nat)
  {
    exists i :: 0 <= i < |g.tasks| && g.tasks[i].server == s && g.tasks[i].task.lbId == b
  }

  ghost predicate Back(g: Cluster, b: nat)
  {
    exists i :: 0 <= i < |g.shed| && g.shed[i].lb == b
  }

  lemma GoingStep(g: Cluster, b: nat, pick: nat) returns (step: Step, h: Cluster)
    requires Looping(g, b, pick) && Going(g, b, g.balancers[b].cfg.serverIndices[pick])
    ensures StepTo(g, step, h) && Looping(h, b, pick) && h.now == g.now
  {
    var i :| 0 <= i < |g.tasks| && g.tasks[i].server == g.balancers[b].cfg.serverIndices[pick] && g.tasks[i].task.lbId == b;
    step, h := DeliverTask(i), TaskDelivered(g, i);
    Wiring.NextKeepsWellFormed(g, step);
    ComesBack(g, i, b, pick);
  }

  lemma BackStep(g: Cluster, b: nat, pick: nat) returns (step: Step, h: Cluster)
    requires Looping(g, b, pick) && Back(g, b)
    ensures StepTo(g, step, h) && Looping(h, b, pick) && h.now == g.now
  {
    var i :| 0 <= i < |g.shed| && g.shed[i].lb == b;
    step, h := DeliverShed(i, pick), ShedDelivered(g, i, pick);
    Wiring.NextKeepsWellFormed(g, step);
    GoesAgain(g, i, b, pick);
  }

  /** The task goes on for ever between the balancer and the server. */
  lemma OneMoreStep(g: Cluster, b: nat, pick: nat) returns (step: Step, h: Cluster)
    requires Looping(g, b, pick)
    ensures StepTo(g, step, h) && Looping(h, b, pick) && h.now == g.now
  {
    if Going(g, b, g.balancers[b].cfg.serverIndices[pick]) {
      step, h := GoingStep(g, b, pick);
    } else {
      step, h := BackStep(g, b, pick);
    }
  }

  lemma ComesBack(g: Cluster, i: nat, b: nat, pick: nat)
    requires Looping(g, b, pick) && i < |g.tasks| && g.tasks[i].task.lbId == b
    requires g.tasks[i].server == g.balancers[b].cfg.serverIndices[pick]
    requires WellFormed(TaskDelivered(g, i))
    ensures Looping(TaskDelivered(g, i), b, pick)
  {
    var m, h := g.tasks[i], TaskDelivered(g, i);
    Bounce.JammedEvictsNothing(g, m.server);
    Bounce.ReturnedAtOnce(g.servers[m.server], m.task, g.now);
    assert h.shed[|g.shed|].lb == b;
  }

  lemma GoesAgain(g: Cluster, i: nat, b: nat, pick: nat)
    requires Looping(g, b, pick) && i < |g.shed| && g.shed[i].lb == b
    requires WellFormed(ShedDelivered(g, i, pick))
    ensures Looping(ShedDelivered(g, i, pick), b, pick)
  {
    var l, h := g.balancers[b], ShedDelivered(g, i, pick);
    assert BalancerAt(g.topo, b, l) && BalancerWired(g.topo, b);
    var s := l.cfg.serverIndices[pick];
    var sent := TaskMsg(s, B.Stamped(l, s, g.shed[i].task, g.now));
    assert B.Input(l, g.shed[i].task, g.now, pick).out.tasks == [sent];
    assert h.tasks[|g.tasks|] == sent;
  }

  // Filling the server

  /** Slots and threshold of the server, and the durations and the last arrival that go with them. */
  ghost predicate Choice(p: Topology, b: nat, pick: nat, s: nat, slots: nat, threshold: nat)
  {
    && Wired(p) && Progress.SheddingChoice(p, b, pick) && s == p.balancers[b].cfg.serverIndices[pick]
    && slots == p.servers[s].maxConcurrency && p.servers[s].shedding == Some(threshold)
  }

  /** As many long requests as the server has slots, one at a time, and one more when the threshold is past. */
  function Requests(b: nat, slots: nat, threshold: nat): (a: seq<Arrival>)
    ensures |a| == slots + 1
  {
    seq(slots, i requires 0 <= i < slots => Arrival(i, b, NewTask(i, slots + threshold + 2)))
    + [Arrival(slots + threshold + 1, b, NewTask(slots + threshold + 1, 1))]
  }

  function InitialPulls(servers: seq<S.ServerConfig>, at: Time): (pulls: seq<InitialPull>)
    ensures forall i :: 0 <= i < |pulls| ==>
              pulls[i].at == at && pulls[i].server < |servers| && servers[pulls[i].server].mode == S.Centralized
  {
    if servers == [] then []
    else
      var s := |servers| - 1;
      InitialPulls(servers[..s], at)
        + if servers[s].mode == S.Centralized then seq(servers[s].maxConcurrency, _ => InitialPull(at, s)) else []
  }

  lemma {:induction false} EnoughPulls(servers: seq<S.ServerConfig>, at: Time, s: nat)
    requires s < |servers| && servers[s].mode == S.Centralized
    ensures Sum(InitialPulls(servers, at), StartsAt(s)) == servers[s].maxConcurrency
  {
    var last := |servers| - 1;
    var before := InitialPulls(servers[..last], at);
    var own := if servers[last].mode == S.Centralized then seq(servers[last].maxConcurrency, _ => InitialPull(at, last)) else [];
    SumConcat(before, own, StartsAt(s));
    if s == last {
      SumZero(before, StartsAt(s));
      SumConstant(own, StartsAt(s), 1);
    } else {
      EnoughPulls(servers[..last], at, s);
      SumZero(own, StartsAt(s));
    }
  }

  ghost function Start(p: Topology, b: nat, slots: nat, threshold: nat): Cluster
  {
    Cluster(p, 0,
      seq(|p.balancers|, i requires 0 <= i < |p.balancers| => FreshLb(p.balancers[i])),
      seq(|p.servers|, i requires 0 <= i < |p.servers| => S.ServerState(p.servers[i], 0, 0, [], [], [], [], [], Occ.EMPTY, 0)),
      Requests(b, slots, threshold), InitialPulls(p.servers, slots + threshold + 2), [], [], [], [], [], [], [], [], [], [], false)
  }

  function FreshLb(r: BalancerRole): B.Balancer
  {
    B.Balancer(r.cfg, seq(r.nServers, _ => 0), seq(r.nServers, _ => 0), [], [], 0, Occ.EMPTY)
  }

  lemma StartInitial(p: Topology, b: nat, pick: nat, s: nat, slots: nat, threshold: nat)
    requires Choice(p, b, pick, s, slots, threshold)
    ensures Initial(Start(p, b, slots, threshold))
  {
    var g := Start(p, b, slots, threshold);
    assert BalancerWired(p, b);
    forall i | 0 <= i < |g.balancers| ensures BalancerAt(p, i, g.balancers[i]) && FreshBalancer(g.balancers[i]) {
      assert BalancerWired(p, i);
    }
    forall i | 0 <= i < |g.servers| ensures ServerAt(p, i, g.servers[i]) {
      assert ServerWired(p, i);
    }
    forall i | 0 <= i < |g.servers| && p.servers[i].mode == S.Centralized
      ensures Sum(g.initialPulls, StartsAt(i)) == p.servers[i].maxConcurrency
    {
      EnoughPulls(p.servers, slots + threshold + 2, i);
    }
  }

  /** The first `k` requests are running at the server, and nothing else has happened. */
  ghost predicate Filling(g: Cluster, p: Topology, b: nat, s: nat, slots: nat, threshold: nat, k: nat)
  {
    && g.topo == p && WellFormed(g) && !g.aborted && Quiet(g) && g.timers == [] && k <= slots && g.now <= k
    && g.arrivals == Requests(b, slots, threshold)[k..]
    && g.initialPulls == InitialPulls(p.servers, slots + threshold + 2)
    && (forall i :: 0 <= i < |g.completions| ==> g.completions[i].at >= slots + threshold + 2)
    && s < |g.servers| && Filled(g.servers[s], k)
  }

  ghost predicate Filled(v: S.ServerState, k: nat)
  {
    && v.inFlight == k == |v.services| && (k > 0 ==> v.services[0].startedAt == 0)
    && v.queue == [] && v.pendingEvictions == [] && v.pendingSheds == []
  }

  lemma FillOne(v: S.ServerState, task: Task, now: Time, k: nat)
    requires Filled(v, k) && v.Valid() && v.cfg.mode == S.Push && k < v.cfg.maxConcurrency && (k == 0 ==> now == 0)
    ensures var fx := S.Input(v, task, now);
            && Filled(fx.server, k + 1) && fx.out.cancelled == []
            && fx.out == S.NOTHING.(completions := [S.Completion(now + task.duration, v.cfg.index, task.(serviceStartedAt := Some(now)))])
  {
  }

  lemma NextDue(g: Cluster, p: Topology, b: nat, pick: nat, s: nat, slots: nat, threshold: nat, k: nat)
    requires Choice(p, b, pick, s, slots, threshold) && Filling(g, p, b, s, slots, threshold, k)
    ensures |g.arrivals| > 0 && g.arrivals[0] == Requests(b, slots, threshold)[k]
    ensures Enabled(g, Arrive(0, pick))
  {
    assert BalancerWired(p, b) && BalancerAt(p, b, g.balancers[b]);
  }

  /** Request `k` arrives when it is its turn. */
  lemma NextArrives(g: Cluster, p: Topology, b: nat, pick: nat, s: nat, slots: nat, threshold: nat, k: nat)
    requires Choice(p, b, pick, s, slots, threshold) && Filling(g, p, b, s, slots, threshold, k)
    ensures |g.arrivals| > 0 && g.arrivals[0] == Requests(b, slots, threshold)[k] && Enabled(g, Arrive(0, pick))
    ensures var h := Arrived(g, 0, pick);
            && h == g.(now := g.arrivals[0].at, arrivals := g.arrivals[1..], balancers := h.balancers, tasks := h.tasks)
            && |h.tasks| == 1 && h.tasks[0].server == s && h.tasks[0].task.lbId == b
            && h.tasks[0].task.duration == g.arrivals[0].task.duration
  {
    NextDue(g, p, b, pick, s, slots, threshold, k);
    assert BalancerWired(p, b) && BalancerAt(p, b, g.balancers[b]);
    assert RemoveAt(g.arrivals, 0) == g.arrivals[1..];
    var l, a := g.balancers[b], g.arrivals[0];
    assert B.Input(l, a.task, a.at, pick).out == B.NOTHING.(tasks := [TaskMsg(s, B.Stamped(l, s, a.task, a.at))]);
  }

  lemma SendStep(g: Cluster, p: Topology, b: nat, pick: nat, s: nat, slots: nat, threshold: nat, k: nat) returns (sent: Cluster)
    requires Choice(p, b, pick, s, slots, threshold) && Filling(g, p, b, s, slots, threshold, k) && k < slots
    ensures StepTo(g, Arrive(0, pick), sent) && Sent(sent, p, b, s, slots, threshold, k)
  {
    NextArrives(g, p, b, pick, s, slots, threshold, k);
    sent := Arrived(g, 0, pick);
    Wiring.NextKeepsWellFormed(g, Arrive(0, pick));
  }

  lemma FillStep(g: Cluster, p: Topology, b: nat, pick: nat, s: nat, slots: nat, threshold: nat, k: nat)
    returns (sent: Cluster, h: Cluster)
    requires Choice(p, b, pick, s, slots, threshold) && Filling(g, p, b, s, slots, threshold, k) && k < slots
    ensures StepTo(g, Arrive(0, pick), sent) && StepTo(sent, DeliverTask(0), h)
    ensures Filling(h, p, b, s, slots, threshold, k + 1)
  {
    sent := SendStep(g, p, b, pick, s, slots, threshold, k);
    h := TaskDelivered(sent, 0);
    Wiring.NextKeepsWellFormed(sent, DeliverTask(0));
    FilledOneMore(sent, p, b, pick, s, slots, threshold, k);
  }

  /** Request `k` is on its way to the server. */
  ghost predicate Sent(g: Cluster, p: Topology, b: nat, s: nat, slots: nat, threshold: nat, k: nat)
  {
    && k < slots && WellFormed(g) && g.topo == p && !g.aborted && g.timers == [] && g.now == k
    && g.shed == [] && g.intents == [] && g.pulls == [] && g.releases == [] && g.evicted == []
    && g.arrivals == Requests(b, slots, threshold)[k + 1..]
    && g.initialPulls == InitialPulls(p.servers, slots + threshold + 2)
    && (forall i :: 0 <= i < |g.completions| ==> g.completions[i].at >= slots + threshold + 2)
    && |g.tasks| == 1 && g.tasks[0].server == s && g.tasks[0].task.duration == slots + threshold + 2
    && s < |g.servers| && Filled(g.servers[s], k)
  }

  lemma FilledOneMore(sent: Cluster, p: Topology, b: nat, pick: nat, s: nat, slots: nat, threshold: nat, k: nat)
    requires Choice(p, b, pick, s, slots, threshold) && Sent(sent, p, b, s, slots, threshold, k)
    requires WellFormed(TaskDelivered(sent, 0))
    ensures Filling(TaskDelivered(sent, 0), p, b, s, slots, threshold, k + 1)
  {
    StartsThere(sent, p, b, pick, s, slots, threshold, k);
  }

  lemma StartsThere(sent: Cluster, p: Topology, b: nat, pick: nat, s: nat, slots: nat, threshold: nat, k: nat)
    requires Choice(p, b, pick, s, slots, threshold) && Sent(sent, p, b, s, slots, threshold, k)
    ensures var h := TaskDelivered(sent, 0);
            && s < |h.servers| && Filled(h.servers[s], k + 1) && |h.completions| == |sent.completions| + 1
            && h.completions[..|sent.completions|] == sent.completions
            && h.completions[|sent.completions|].at == k + slots + threshold + 2
            && h == sent.(servers := h.servers, completions := h.completions, tasks := [])
  {
    assert BalancerWired(p, b) && ServerAt(p, s, sent.servers[s]);
    FillOne(sent.servers[s], sent.tasks[0].task, k, k);
    assert RemoveAt(sent.tasks, 0) == [];
  }

  lemma FilledJams(v: S.ServerState, slots: nat, threshold: nat)
    requires Filled(v, slots) && 1 <= slots == v.cfg.maxConcurrency && v.cfg.mode == S.Push && v.cfg.shedding == Some(threshold)
    ensures Bounce.Jammed(v, slots + threshold + 1)
  {
    var now := slots + threshold + 1;
    assert SaturatingSub(now, v.services[0].startedAt) <= S.HeadOfLineWait(v.services, now);
  }

  lemma TheServer(g: Cluster, p: Topology, b: nat, pick: nat, s: nat, slots: nat, threshold: nat)
    requires Choice(p, b, pick, s, slots, threshold) && WellFormed(g) && g.topo == p
    ensures CanPick(g, b, pick) && g.balancers[b].cfg == p.balancers[b].cfg && g.balancers[b].cfg.policy == B.Push
    ensures s < |g.servers| && slots >= 1 && g.servers[s].cfg == p.servers[s] && p.servers[s].mode == S.Push
  {
    assert BalancerWired(p, b) && ServerWired(p, s) && ServerAt(p, s, g.servers[s]) && BalancerAt(p, b, g.balancers[b]);
  }

  /** When all slots are taken and the threshold is past, one more request starts the loop. */
  lemma LoopStarts(g: Cluster, p: Topology, b: nat, pick: nat, s: nat, slots: nat, threshold: nat) returns (h: Cluster)
    requires Choice(p, b, pick, s, slots, threshold) && Filling(g, p, b, s, slots, threshold, slots)
    ensures StepTo(g, Arrive(0, pick), h) && Looping(h, b, pick)
  {
    NextArrives(g, p, b, pick, s, slots, threshold, slots);
    h := Arrived(g, 0, pick);
    Wiring.NextKeepsWellFormed(g, Arrive(0, pick));
    TheServer(h, p, b, pick, s, slots, threshold);
    FilledJams(h.servers[s], slots, threshold);
  }

  // Runs of any length

  lemma Extended(states: seq<Cluster>, steps: seq<Step>, step: Step, h: Cluster)
    requires Run(states, steps) && StepTo(Runs.Final(states), step, h)
    ensures Run(states + [h], steps + [step]) && Runs.Final(states + [h]) == h && (states + [h])[0] == states[0]
  {
    var more, all := states + [h], steps + [step];
    forall i | 0 <= i < |all| ensures StepTo(more[i], all[i], more[i + 1]) {
      if i < |steps| {
        assert StepTo(states[i], steps[i], states[i + 1]);
      }
    }
  }

  lemma {:induction false} FilledRun(p: Topology, b: nat, pick: nat, s: nat, slots: nat, threshold: nat, k: nat)
    returns (states: seq<Cluster>, steps: seq<Step>)
    requires Choice(p, b, pick, s, slots, threshold) && k <= slots
    ensures Run(states, steps) && states[0] == Start(p, b, slots, threshold)
    ensures Filling(Runs.Final(states), p, b, s, slots, threshold, k)
    decreases k
  {
    if k == 0 {
      StartInitial(p, b, pick, s, slots, threshold);
      states, steps := [Start(p, b, slots, threshold)], [];
      assert Requests(b, slots, threshold)[0..] == Requests(b, slots, threshold);
    } else {
      states, steps := FilledRun(p, b, pick, s, slots, threshold, k - 1);
      var sent, h := FillStep(Runs.Final(states), p, b, pick, s, slots, threshold, k - 1);
      Extended(states, steps, Arrive(0, pick), sent);
      states, steps := states + [sent], steps + [Arrive(0, pick)];
      Extended(states, steps, DeliverTask(0), h);
      states, steps := states + [h], steps + [DeliverTask(0)];
    }
  }

  lemma {:induction false} LongRun(p: Topology, b: nat, pick: nat, s: nat, slots: nat, threshold: nat, n: nat)
    returns (states: seq<Cluster>, steps: seq<Step>)
    requires Choice(p, b, pick, s, slots, threshold)
    ensures Run(states, steps) && states[0] == Start(p, b, slots, threshold)
    ensures |steps| > n && Looping(Runs.Final(states), b, pick)
    decreases n
  {
    if n == 0 {
      states, steps := FilledRun(p, b, pick, s, slots, threshold, slots);
      var h := LoopStarts(Runs.Final(states), p, b, pick, s, slots, threshold);
      Extended(states, steps, Arrive(0, pick), h);
      states, steps := states + [h], steps + [Arrive(0, pick)];
    } else {
      states, steps := LongRun(p, b, pick, s, slots, threshold, n - 1);
      var step, h := OneMoreStep(Runs.Final(states), b, pick);
      Extended(states, steps, step, h);
      states, steps := states + [h], steps + [step];
    }
  }

  ghost predicate BoundedBy(g: Cluster, n: nat)
  {
    forall states: seq<Cluster>, steps: seq<Step> :: Run(states, steps) && states[0] == g ==> |steps| <= n
  }

  /** Some number bounds the length of every run that starts like this. */
  ghost predicate Bounded(g: Cluster)
  {
    exists n: nat :: BoundedBy(g, n)
  }

  /** Every simulation of the topology has bounded runs. */
  ghost predicate AlwaysBounded(p: Topology)
  {
    forall g: Cluster :: Initial(g) && g.topo == p ==> Bounded(g)
  }

  /** Termination, exactly. The runs of every simulation of a topology are bounded if and only if no push balancer of it
      can choose a server that sheds. */
  lemma BoundedIffNoShedding(p: Topology)
    requires Wired(p)
    ensures AlwaysBounded(p) <==> Progress.NoShedding(p)
  {
    if Progress.NoShedding(p) {
      forall g: Cluster | Initial(g) && g.topo == p ensures Bounded(g) {
        assert BoundedBy(g, 11 * |g.arrivals| + 2 * |g.initialPulls|) by {
          forall states: seq<Cluster>, steps: seq<Step> | Run(states, steps) && states[0] == g
            ensures |steps| <= 11 * |g.arrivals| + 2 * |g.initialPulls|
          {
            Runs.EveryRunIsBounded(states, steps);
          }
        }
      }
    } else {
      var b: nat, pick: nat :| Progress.SheddingChoice(p, b, pick);
      NotBounded(p, b, pick);
    }
  }

  lemma NotBounded(p: Topology, b: nat, pick: nat)
    requires Wired(p) && Progress.SheddingChoice(p, b, pick)
    ensures !AlwaysBounded(p)
  {
    var s := p.balancers[b].cfg.serverIndices[pick];
    var slots, threshold := p.servers[s].maxConcurrency, p.servers[s].shedding.value;
    var g := Start(p, b, slots, threshold);
    StartInitial(p, b, pick, s, slots, threshold);
    forall n: nat ensures !BoundedBy(g, n) {
      var states, steps := LongRun(p, b, pick, s, slots, threshold, n);
    }
  }
}
