/** The main results about whole simulations: what holds in every state of every run, how long runs are, and
    what a run that cannot continue has achieved. */
module Runs {
  import opened Domain
  import opened Sums
  import opened Clusters
  import B = Balancers
  import Occ = Occupancy
  import Flows
  import Wiring
  import Accounting
  import Expresses
  import Slots
  import Claims
  import Disciplines
  import Timing
  import Little
  import Jobs
  import Progress

  /** Everything that every handler keeps, in a simulation that began at `t0` with topology `p`. */
  ghost predicate Invariant(g: Cluster, p: Topology, t0: Time)
  {
    && g.topo == p && WellFormed(g) && !g.aborted
    && Accounting.Exact(g) && Expresses.Exact(g) && Slots.SlotsOk(g) && Claims.ClaimsOk(g) && Disciplines.DisciplineOk(g)
    && Timing.Timely(g) && Timing.Utilised(g, t0) && g.now >= t0
    && (Little.Plain(p) ==> Little.LittleOk(g))
  }

  lemma InitialInvariant(g: Cluster)
    requires Initial(g)
    ensures Invariant(g, g.topo, g.now)
  {
    Accounting.InitialExact(g);
    Expresses.InitialExact(g);
    Slots.InitialSlots(g);
    Claims.InitialClaims(g);
    Disciplines.InitialDiscipline(g);
    Timing.InitialTimely(g);
    Little.InitialLittle(g);
  }

  lemma NextInvariant(g: Cluster, step: Step, p: Topology, t0: Time)
    requires Invariant(g, p, t0) && Enabled(g, step)
    ensures Invariant(Next(g, step), p, t0)
  {
    Wiring.NextKeepsWellFormed(g, step);
    Accounting.NextKeepsExact(g, step);
    Expresses.NextKeepsExact(g, step);
    Slots.NextKeepsSlots(g, step);
    Claims.NextKeepsClaims(g, step);
    Claims.NextNeverAborts(g, step);
    Disciplines.NextKeepsDiscipline(g, step);
    Timing.NextKeepsTimely(g, step);
    Timing.NextKeepsUtilised(g, step, t0);
    Timing.NextTime(g, step);
    if Little.Plain(p) {
      Little.NextKeepsLittle(g, step);
    }
    SameTopology(g, step);
  }

  lemma SameTopology(g: Cluster, step: Step)
    requires WellFormed(g) && Enabled(g, step)
    ensures Next(g, step).topo == g.topo
  {
  }

  ghost function Final(states: seq<Cluster>): Cluster
    requires states != []
  {
    states[|states| - 1]
  }

  lemma RunPrefix(states: seq<Cluster>, steps: seq<Step>)
    requires Run(states, steps) && steps != []
    ensures Run(states[..|steps|], steps[..|steps| - 1])
    ensures StepTo(Final(states[..|steps|]), steps[|steps| - 1], Final(states))
  {
    var n := |steps| - 1;
    assert StepTo(states[n], steps[n], states[n + 1]);
    forall i | 0 <= i < n ensures StepTo(states[..n + 1][i], steps[..n][i], states[..n + 1][i + 1]) {
      assert StepTo(states[i], steps[i], states[i + 1]);
    }
  }

  /** Safety. Every run, of any length, of any topology and mode, keeps the invariant: no pull ever aborts, every
      counter is exact, no server exceeds its slots, and no busy time exceeds the capacity. */
  lemma {:induction false} EveryRunIsSafe(states: seq<Cluster>, steps: seq<Step>)
    requires Run(states, steps)
    ensures Invariant(Final(states), states[0].topo, states[0].now)
    decreases |steps|
  {
    if steps == [] {
      InitialInvariant(states[0]);
    } else {
      RunPrefix(states, steps);
      EveryRunIsSafe(states[..|steps|], steps[..|steps| - 1]);
      NextInvariant(Final(states[..|steps|]), steps[|steps| - 1], states[0].topo, states[0].now);
    }
  }

  /** Conservation. At any point of any run the jobs in the system and the jobs done are together the jobs that
      were going to arrive, each still with its client. */
  lemma {:induction false} EveryRunConservesJobs(states: seq<Cluster>, steps: seq<Step>, w: Jobs.Weight)
    requires Run(states, steps)
    ensures Jobs.Total(Final(states), w) == Sum(states[0].arrivals, Jobs.OfArrival(w))
    decreases |steps|
  {
    if steps == [] {
      Jobs.InitialTotal(states[0], w);
    } else {
      RunPrefix(states, steps);
      EveryRunConservesJobs(states[..|steps|], steps[..|steps| - 1], w);
      Jobs.NextKeepsTotal(Final(states[..|steps|]), steps[|steps| - 1], w);
    }
  }

  ghost function ShedAt(states: seq<Cluster>, steps: seq<Step>, k: nat): int
    requires |states| == |steps| + 1 && k < |steps|
  {
    Progress.ShedBy(states[k], steps[k], states[k + 1])
  }

  /** How often a task has been shed in the first `k` steps. */
  ghost function ShedIn(states: seq<Cluster>, steps: seq<Step>, k: nat): int
    requires |states| == |steps| + 1 && k <= |steps|
  {
    if k == 0 then 0 else ShedIn(states, steps, k - 1) + ShedAt(states, steps, k - 1)
  }

  lemma StepUsesUpWork(states: seq<Cluster>, steps: seq<Step>, k: nat)
    requires Run(states, steps) && k < |steps|
    ensures Progress.Remaining(states[k + 1]) < Progress.Remaining(states[k]) + 4 * ShedAt(states, steps, k)
  {
    assert StepTo(states[k], steps[k], states[k + 1]);
    Progress.NextShrinks(states[k], steps[k]);
  }

  ghost predicate Shrinking(states: seq<Cluster>, steps: seq<Step>)
  {
    && |states| == |steps| + 1
    && forall i {:trigger steps[i]} :: 0 <= i < |steps| ==>
         Progress.Remaining(states[i + 1]) < Progress.Remaining(states[i]) + 4 * ShedAt(states, steps, i)
  }

  lemma RunShrinks(states: seq<Cluster>, steps: seq<Step>)
    requires Run(states, steps)
    ensures Shrinking(states, steps)
  {
    forall i {:trigger steps[i]} | 0 <= i < |steps|
      ensures Progress.Remaining(states[i + 1]) < Progress.Remaining(states[i]) + 4 * ShedAt(states, steps, i)
    {
      StepUsesUpWork(states, steps, i);
    }
  }

  lemma {:induction false} StepsUseUpWork(states: seq<Cluster>, steps: seq<Step>, k: nat)
    requires Shrinking(states, steps) && k <= |steps|
    ensures Progress.Remaining(states[k]) + k <= Progress.Remaining(states[0]) + 4 * ShedIn(states, steps, k)
  {
    if k > 0 {
      StepsUseUpWork(states, steps, k - 1);
    }
  }

  lemma RemainingPositive(g: Cluster)
    requires !g.aborted
    ensures Progress.Remaining(g) >= 1
  {
    SumNonNegative(g.tasks, Progress.Transit(g.topo));
    SumNonNegative(g.balancers, Progress.AtLb());
    SumNonNegative(g.servers, Progress.AtHost());
  }

  /** Only shedding makes runs long: a run takes at most eleven handlers for each request, two for each initial pull, and
      four for each time that a task is shed. */
  lemma LongOnlyByShedding(states: seq<Cluster>, steps: seq<Step>)
    requires Run(states, steps)
    ensures |steps| <= 11 * |states[0].arrivals| + 2 * |states[0].initialPulls| + 4 * ShedIn(states, steps, |steps|)
  {
    RunShrinks(states, steps);
    StepsUseUpWork(states, steps, |steps|);
    Progress.InitialRemaining(states[0]);
    EveryRunIsSafe(states, steps);
    RemainingPositive(states[|steps|]);
  }

  ghost predicate NeverSheds(g: Cluster, p: Topology)
  {
    g.topo == p && Progress.Unshed(g)
  }

  lemma StepSheds(states: seq<Cluster>, steps: seq<Step>, k: nat, p: Topology)
    requires Run(states, steps) && k < |steps| && Progress.NoShedding(p) && NeverSheds(states[k], p)
    ensures NeverSheds(states[k + 1], p) && ShedAt(states, steps, k) == 0
  {
    assert StepTo(states[k], steps[k], states[k + 1]);
    Progress.NextUnshed(states[k], steps[k]);
    SameTopology(states[k], steps[k]);
  }

  lemma StartsUnshed(g: Cluster)
    requires Initial(g)
    ensures Progress.Unshed(g)
  {
  }

  lemma {:induction false} UnshedAt(states: seq<Cluster>, steps: seq<Step>, k: nat)
    requires Run(states, steps) && k <= |steps| && Progress.NoShedding(states[0].topo)
    ensures NeverSheds(states[k], states[0].topo)
  {
    if k == 0 {
      StartsUnshed(states[0]);
    } else {
      UnshedAt(states, steps, k - 1);
      StepSheds(states, steps, k - 1, states[0].topo);
    }
  }

  ghost predicate NoneShed(states: seq<Cluster>, steps: seq<Step>)
  {
    |states| == |steps| + 1 && forall i :: 0 <= i < |steps| ==> ShedAt(states, steps, i) == 0
  }

  lemma RunShedsNothing(states: seq<Cluster>, steps: seq<Step>)
    requires Run(states, steps) && Progress.NoShedding(states[0].topo)
    ensures NoneShed(states, steps)
  {
    forall i | 0 <= i < |steps| ensures ShedAt(states, steps, i) == 0 {
      UnshedAt(states, steps, i);
      StepSheds(states, steps, i, states[0].topo);
    }
  }

  lemma {:induction false} NothingShed(states: seq<Cluster>, steps: seq<Step>, k: nat)
    requires NoneShed(states, steps) && k <= |steps|
    ensures ShedIn(states, steps, k) == 0
  {
    if k > 0 {
      NothingShed(states, steps, k - 1);
    }
  }

  /** Termination. Where no push balancer can choose a server that sheds, no run takes more than eleven handlers for each
      request and two for each initial pull, whatever the durations, the interleaving and the routing. */
  lemma EveryRunIsBounded(states: seq<Cluster>, steps: seq<Step>)
    requires Run(states, steps) && Progress.NoShedding(states[0].topo)
    ensures |steps| <= 11 * |states[0].arrivals| + 2 * |states[0].initialPulls|
  {
    LongOnlyByShedding(states, steps);
    RunShedsNothing(states, steps);
    NothingShed(states, steps, |steps|);
  }

  ghost predicate Stuck(g: Cluster)
    requires WellFormed(g)
  {
    forall step: Step :: !Enabled(g, step)
  }

  /** Deadlock freedom. A run that cannot continue has completed every job that arrived, for the client it arrived
      at, and has left no queue, slot, reservation or counter occupied anywhere. With work shedding too. */
  lemma StuckMeansComplete(states: seq<Cluster>, steps: seq<Step>, w: Jobs.Weight)
    requires Run(states, steps) && WellFormed(Final(states)) && Stuck(Final(states))
    ensures Progress.Over(Final(states)) && Progress.Settled(Final(states))
    ensures Sum(Final(states).done, Flows.OfTask(Jobs.AsOwned(w))) == Sum(states[0].arrivals, Jobs.OfArrival(w))
  {
    var g := Final(states);
    EveryRunIsSafe(states, steps);
    if !Progress.Over(g) {
      var step := Progress.SomethingCanHappen(g);
    }
    Progress.EndsSettled(g);
    EveryRunConservesJobs(states, steps, w);
    NothingLeft(g, w);
  }

  lemma NothingLeft(g: Cluster, w: Jobs.Weight)
    requires Progress.Over(g) && Progress.Settled(g)
    ensures Jobs.Total(g, w) == Sum(g.done, Flows.OfTask(Jobs.AsOwned(w)))
  {
    forall b | 0 <= b < |g.balancers| ensures Jobs.QueuedJobs(w)(g.balancers[b]) == 0 {
      assert Progress.BalancerSettled(g.balancers[b]);
    }
    SumZero(g.balancers, Jobs.QueuedJobs(w));
    forall s | 0 <= s < |g.servers| ensures Accounting.QueuedAt(Jobs.AsOwned(w))(g.servers[s]) == 0 {
      assert Progress.ServerSettled(g.servers[s]);
    }
    SumZero(g.servers, Accounting.QueuedAt(Jobs.AsOwned(w)));
  }

  /** Every request that a run completes has been served once from start to finish. */
  lemma DoneCount(states: seq<Cluster>, steps: seq<Step>)
    requires Run(states, steps) && WellFormed(Final(states)) && Stuck(Final(states))
    ensures |Final(states).done| == |states[0].arrivals|
    ensures forall i :: 0 <= i < |Final(states).done| ==> FinishedAt(Final(states).topo, Final(states).done[i])
  {
    var one: Jobs.Weight := (_: nat, _: Time, _: nat) => 1;
    StuckMeansComplete(states, steps, one);
    SumConstant(Final(states).done, Flows.OfTask(Jobs.AsOwned(one)), 1);
    SumConstant(states[0].arrivals, Jobs.OfArrival(one), 1);
  }

  /** Little's identity. When a run of pull-mode clients has ended, the queue-length integral of each of them is the
      sum over its completed tasks of the time from start to dispatch. */
  lemma LittleIdentity(states: seq<Cluster>, steps: seq<Step>, b: nat)
    requires Run(states, steps) && Little.Plain(states[0].topo) && WellFormed(Final(states)) && Stuck(Final(states))
    requires b < |Final(states).balancers| && Final(states).balancers[b].cfg.policy != B.Push
    ensures var g := Final(states);
            Occ.IntegralAt(g.balancers[b].occupancy, g.now) == Sum(g.done, Flows.OfTask(Little.Waited(b)))
  {
    var g := Final(states);
    EveryRunIsSafe(states, steps);
    StuckMeansComplete(states, steps, (_: nat, _: Time, _: nat) => 0);
    assert Progress.BalancerSettled(g.balancers[b]);
    forall s | 0 <= s < |g.servers| ensures g.servers[s].queue == [] {
      assert Progress.ServerSettled(g.servers[s]);
    }
    Little.IdentityWhenDone(g, b);
  }

  /** At any time the busy time charged to a server is at most its number of slots times the time that has passed. */
  lemma UtilisationAtMostOne(states: seq<Cluster>, steps: seq<Step>, s: nat)
    requires Run(states, steps) && s < |Final(states).servers|
    ensures var g := Final(states);
            g.servers[s].busy <= g.servers[s].cfg.maxConcurrency * (g.now - states[0].now)
            && g.servers[s].inFlight <= g.servers[s].cfg.maxConcurrency
  {
    EveryRunIsSafe(states, steps);
    var g := Final(states);
    assert Timing.UtilisedAt(g, s, states[0].now) && Slots.SlotsAt(g, s);
    forall i | 0 <= i < |g.completions| ensures Timing.Elapsed(s, g.now)(g.completions[i]) >= 0 {
      assert Timing.Started(g.completions[i], g.now);
    }
    NonNegativeOver(g.completions, Timing.Elapsed(s, g.now));
  }

  lemma {:induction false} NonNegativeOver<T>(s: seq<T>, f: T -> int)
    requires forall i :: 0 <= i < |s| ==> f(s[i]) >= 0
    ensures Sum(s, f) >= 0
  {
    if s != [] {
      NonNegativeOver(s[..|s| - 1], f);
    }
  }
}
