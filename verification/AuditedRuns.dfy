/** The pull audit accepts what the protocol does: the trace of every completed AmphiQueue run passes the common
    validation, and the bound or the first-come replay according to the mode. */
module AuditedRuns {
  import opened Domain
  import opened Sums
  import opened Clusters
  import opened PullAudit
  import B = Balancers
  import S = Servers
  import Claims
  import Progress
  import Runs

  ghost predicate AllBound(p: Topology)
  {
    forall b :: 0 <= b < |p.balancers| && p.balancers[b].cfg.policy == B.AmphiQueue ==> !p.balancers[b].cfg.unbound
  }

  ghost predicate AllUnbound(p: Topology)
  {
    forall b :: 0 <= b < |p.balancers| && p.balancers[b].cfg.policy == B.AmphiQueue ==> p.balancers[b].cfg.unbound
  }

  function Pairs(intents: seq<PullIntent>): (pairs: seq<(nat, nat)>)
    ensures |pairs| == |intents|
  {
    seq(|intents|, i requires 0 <= i < |intents| => (intents[i].senderId, intents[i].requestId))
  }

  function InOrder(p: Topology, b: nat): bool
  {
    b < |p.balancers| && p.balancers[b].cfg.unbound
  }

  function OfAmphi(p: Topology): PullMsg -> int
  {
    (m: PullMsg) => if m.lb < |p.balancers| && p.balancers[m.lb].cfg.policy == B.AmphiQueue then 1 else 0
  }

  function IntentCount(): S.ServerState -> int
  {
    (v: S.ServerState) => |v.intents|
  }

  // What the trace says about one model

  ghost predicate ServerLog(log: seq<PullEvent>, s: nat, pairs: seq<(nat, nat)>)
  {
    Pick(log, DrainedAt(s)) + pairs == Pick(log, QueuedAt(s))
  }

  ghost predicate BalancerLog(log: seq<PullEvent>, b: nat, inOrder: bool, ids: seq<nat>)
  {
    Unordered(log, b, ids) && (inOrder ==> Ordered(log, b, ids))
  }

  ghost predicate Unordered(log: seq<PullEvent>, b: nat, ids: seq<nat>)
  {
    Bag(Pick(log, PulledFrom(b))) + Bag(ids) == Bag(Pick(log, EnqueuedBy(b)))
  }

  ghost predicate Ordered(log: seq<PullEvent>, b: nat, ids: seq<nat>)
  {
    Pick(log, PulledFrom(b)) + ids == Pick(log, EnqueuedBy(b))
  }

  lemma Lengths(log: seq<PullEvent>, b: nat, ids: seq<nat>)
    requires Unordered(log, b, ids)
    ensures |Pick(log, PulledFrom(b))| + |ids| == |Pick(log, EnqueuedBy(b))|
  {
    assert |Bag(Pick(log, PulledFrom(b))) + Bag(ids)| == |Bag(Pick(log, PulledFrom(b)))| + |Bag(ids)|;
  }

  /** Intents on their way to a server, waiting there, and pulls on their way back. */
  ghost predicate Counts(log: seq<PullEvent>, sent: int, waiting: int, pulling: int)
  {
    && |Pick(log, Sends())| == |Pick(log, Queues())| + sent
    && |Pick(log, Queues())| == |Pick(log, Drains())| + waiting
    && |Pick(log, Drains())| == |Pick(log, Fulfils())| + pulling
  }

  ghost predicate Lawful(p: Topology, log: seq<PullEvent>)
  {
    && Throughout(log, Common)
    && (AllBound(p) ==> Throughout(log, Bound))
    && (AllUnbound(p) ==> Throughout(log, Fcfs))
  }

  /** What the trace has not finished: intents on their way, intents waiting at each server, pulls on their way back,
      and the identifiers of the tasks queued at each AmphiQueue balancer. */
  datatype Ledger = Ledger(
    topo: Topology, log: seq<PullEvent>, sent: int, queued: int, pulling: int,
    waiting: seq<seq<(nat, nat)>>, held: seq<seq<nat>>)

  function At<T>(s: seq<seq<T>>, i: nat): seq<T>
  {
    if i < |s| then s[i] else []
  }

  /** The trace so far is lawful, and what it has not finished is what the ledger holds. */
  ghost predicate LedgerOk(l: Ledger)
  {
    && Lawful(l.topo, l.log)
    && ServersLogged(l.log, l.waiting) && BalancersLogged(l.topo, l.log, l.held)
    && Counts(l.log, l.sent, l.queued, l.pulling)
  }

  ghost predicate ServersLogged(log: seq<PullEvent>, waiting: seq<seq<(nat, nat)>>)
  {
    forall s: nat :: ServerLog(log, s, At(waiting, s))
  }

  ghost predicate BalancersLogged(p: Topology, log: seq<PullEvent>, held: seq<seq<nat>>)
  {
    forall b: nat :: BalancerLog(log, b, InOrder(p, b), At(held, b))
  }

  // One more event

  lemma CountsNext(log: seq<PullEvent>, e: PullEvent, sent: int, waiting: int, pulling: int)
    requires Counts(log, sent, waiting, pulling)
    ensures match e
            case TaskEnqueued(_, _, _) => Counts(log + [e], sent, waiting, pulling)
            case IntentSent(_, _, _) => Counts(log + [e], sent + 1, waiting, pulling)
            case IntentQueued(_, _, _, _) => Counts(log + [e], sent - 1, waiting + 1, pulling)
            case IntentDrained(_, _, _, _, _, _, _) => Counts(log + [e], sent, waiting - 1, pulling + 1)
            case PullFulfilled(_, _, _, _, _, _) => Counts(log + [e], sent, waiting, pulling - 1)
  {
    PickAppend(log, e, Sends());
    PickAppend(log, e, Queues());
    PickAppend(log, e, Drains());
    PickAppend(log, e, Fulfils());
  }

  lemma LawfulNext(p: Topology, log: seq<PullEvent>, e: PullEvent)
    requires Lawful(p, log) && Common(log, e)
    requires e.PullFulfilled? ==> (AllBound(p) ==> Bound(log, e)) && (AllUnbound(p) ==> Fcfs(log, e))
    ensures Lawful(p, log + [e])
  {
    ThroughoutAppend(log, e, Common);
    if AllBound(p) {
      ThroughoutAppend(log, e, Bound);
    }
    if AllUnbound(p) {
      ThroughoutAppend(log, e, Fcfs);
    }
  }

  lemma OtherServerEvent(log: seq<PullEvent>, e: PullEvent, s: nat, pairs: seq<(nat, nat)>)
    requires ServerLog(log, s, pairs) && QueuedAt(s)(e) == [] && DrainedAt(s)(e) == []
    ensures ServerLog(log + [e], s, pairs)
  {
    PickAppend(log, e, DrainedAt(s));
    PickAppend(log, e, QueuedAt(s));
  }

  /** An event that moves identifiers between the trace and the queue of a balancer. */
  lemma BalancerEvent(log: seq<PullEvent>, e: PullEvent, b: nat, inOrder: bool, ids: seq<nat>, after: seq<nat>)
    requires BalancerLog(log, b, inOrder, ids)
    requires Bag(ids) + Bag(EnqueuedBy(b)(e)) == Bag(PulledFrom(b)(e)) + Bag(after)
    requires inOrder ==> ids + EnqueuedBy(b)(e) == PulledFrom(b)(e) + after
    ensures BalancerLog(log + [e], b, inOrder, after)
  {
    UnorderedNext(log, e, b, ids, after);
    if inOrder {
      HeldNext(log, e, b, ids, after);
    }
  }

  lemma OtherBalancerEvent(log: seq<PullEvent>, e: PullEvent, b: nat, inOrder: bool, ids: seq<nat>)
    requires BalancerLog(log, b, inOrder, ids) && EnqueuedBy(b)(e) == [] && PulledFrom(b)(e) == []
    ensures BalancerLog(log + [e], b, inOrder, ids)
  {
    BalancerEvent(log, e, b, inOrder, ids, ids);
  }

  lemma QueuedEvent(log: seq<PullEvent>, s: nat, pairs: seq<(nat, nat)>, it: PullIntent)
    requires ServerLog(log, s, pairs)
    ensures var e := IntentQueued(s, it.senderId, it.requestId, |pairs|);
            Common(log, e) && ServerLog(log + [e], s, pairs + [(it.senderId, it.requestId)])
  {
    var e := IntentQueued(s, it.senderId, it.requestId, |pairs|);
    PickAppend(log, e, DrainedAt(s));
    PickAppend(log, e, QueuedAt(s));
    assert Pick(log, DrainedAt(s)) + pairs + [(it.senderId, it.requestId)]
        == Pick(log, DrainedAt(s)) + (pairs + [(it.senderId, it.requestId)]);
  }

  lemma DrainedEvent(log: seq<PullEvent>, s: nat, pairs: seq<(nat, nat)>, pending: nat, inFlight: nat, max: nat)
    requires ServerLog(log, s, pairs) && pairs != [] && inFlight + pending < max
    ensures var e := IntentDrained(s, pairs[0].0, pairs[0].1, |pairs|, pending, inFlight, max);
            Common(log, e) && ServerLog(log + [e], s, pairs[1..])
  {
    var e := IntentDrained(s, pairs[0].0, pairs[0].1, |pairs|, pending, inFlight, max);
    PickAppend(log, e, DrainedAt(s));
    PickAppend(log, e, QueuedAt(s));
    assert pairs == [pairs[0]] + pairs[1..];
    var d := Pick(log, DrainedAt(s));
    assert d + ([pairs[0]] + pairs[1..]) == (d + [pairs[0]]) + pairs[1..];
    assert Pick(log, QueuedAt(s))[|d|] == pairs[0];
  }

  lemma EnqueuedEvent(log: seq<PullEvent>, b: nat, inOrder: bool, ids: seq<nat>, id: nat)
    requires BalancerLog(log, b, inOrder, ids)
    ensures var e := TaskEnqueued(b, id, |ids|);
            Common(log, e) && BalancerLog(log + [e], b, inOrder, ids + [id])
  {
    Lengths(log, b, ids);
    BalancerEvent(log, TaskEnqueued(b, id, |ids|), b, inOrder, ids, ids + [id]);
  }

  function Fulfilment(b: nat, s: nat, ids: seq<nat>, j: nat, intentId: Option<nat>): PullEvent
    requires j < |ids|
  {
    PullFulfilled(b, s, intentId, ids[j], |ids|, Some(ids[0]))
  }

  lemma FulfilledLog(log: seq<PullEvent>, b: nat, inOrder: bool, ids: seq<nat>, j: nat, s: nat, intentId: Option<nat>)
    requires BalancerLog(log, b, inOrder, ids) && j < |ids| && (inOrder ==> j == 0)
    ensures var e := Fulfilment(b, s, ids, j, intentId);
            Common(log, e) && BalancerLog(log + [e], b, inOrder, RemoveAt(ids, j))
  {
    var e := Fulfilment(b, s, ids, j, intentId);
    Lengths(log, b, ids);
    TakenByPull(b, ids, j, e);
    BalancerEvent(log, e, b, inOrder, ids, RemoveAt(ids, j));
  }

  lemma TakenByPull(b: nat, ids: seq<nat>, j: nat, e: PullEvent)
    requires j < |ids| && e.PullFulfilled? && e.lb == b && e.pulledId == ids[j]
    ensures Bag(ids) + Bag(EnqueuedBy(b)(e)) == Bag(PulledFrom(b)(e)) + Bag(RemoveAt(ids, j))
    ensures j == 0 ==> ids + EnqueuedBy(b)(e) == PulledFrom(b)(e) + RemoveAt(ids, j)
  {
    TakenOut(ids, j);
    assert PulledFrom(b)(e) == [ids[j]] && EnqueuedBy(b)(e) == [];
  }

  /** A pull that takes the task it names obeys the bound law, one that takes the head the first-come law. */
  lemma FulfilledLaws(log: seq<PullEvent>, b: nat, inOrder: bool, ids: seq<nat>, j: nat, s: nat, intentId: Option<nat>)
    requires BalancerLog(log, b, inOrder, ids) && j < |ids| && (inOrder ==> j == 0)
    ensures var e := Fulfilment(b, s, ids, j, intentId);
            (intentId == Some(ids[j]) ==> Bound(log, e)) && (inOrder ==> Fcfs(log, e))
  {
    Lengths(log, b, ids);
    Pending(Bag(Pick(log, PulledFrom(b))), ids, Bag(Pick(log, EnqueuedBy(b))), ids[j]);
    assert ids[j] in ids;
    if inOrder {
      assert Pick(log, EnqueuedBy(b))[|Pick(log, PulledFrom(b))|] == ids[0];
    }
  }

  // The ledger's five moves

  function Enqueue(l: Ledger, b: nat, id: nat): Ledger
    requires b < |l.held|
  {
    l.(log := l.log + [TaskEnqueued(b, id, |l.held[b]|)], held := l.held[b := l.held[b] + [id]])
  }

  function Send(l: Ledger, b: nat, s: nat, id: nat): Ledger
  {
    l.(log := l.log + [IntentSent(b, s, id)], sent := l.sent + 1)
  }

  function Queue(l: Ledger, s: nat, it: PullIntent): Ledger
    requires s < |l.waiting|
  {
    l.(log := l.log + [IntentQueued(s, it.senderId, it.requestId, |l.waiting[s]|)],
       sent := l.sent - 1, queued := l.queued + 1,
       waiting := l.waiting[s := l.waiting[s] + [(it.senderId, it.requestId)]])
  }

  function Drain(l: Ledger, s: nat, pending: nat, inFlight: nat, max: nat): Ledger
    requires s < |l.waiting| && l.waiting[s] != []
  {
    l.(log := l.log + [IntentDrained(s, l.waiting[s][0].0, l.waiting[s][0].1, |l.waiting[s]|, pending, inFlight, max)],
       queued := l.queued - 1, pulling := l.pulling + 1, waiting := l.waiting[s := l.waiting[s][1..]])
  }

  function Fulfil(l: Ledger, b: nat, s: nat, j: nat, intentId: Option<nat>): Ledger
    requires b < |l.held| && j < |l.held[b]|
  {
    l.(log := l.log + [Fulfilment(b, s, l.held[b], j, intentId)],
       pulling := l.pulling - 1, held := l.held[b := RemoveAt(l.held[b], j)])
  }

  /** An event of server `s` replaces its waiting intents; an event of no server replaces none. */
  lemma ServersNext(log: seq<PullEvent>, e: PullEvent, waiting: seq<seq<(nat, nat)>>, s: nat, pairs: seq<(nat, nat)>)
    requires ServersLogged(log, waiting) && s < |waiting| && ServerLog(log + [e], s, pairs)
    requires (e.IntentQueued? || e.IntentDrained?) && e.server == s
    ensures ServersLogged(log + [e], waiting[s := pairs])
  {
    var next := waiting[s := pairs];
    forall t: nat ensures ServerLog(log + [e], t, At(next, t)) {
      if t != s {
        assert ServerLog(log, t, At(waiting, t));
        OtherServerEvent(log, e, t, At(waiting, t));
      }
    }
  }

  lemma ServersKeep(log: seq<PullEvent>, e: PullEvent, waiting: seq<seq<(nat, nat)>>)
    requires ServersLogged(log, waiting) && !e.IntentQueued? && !e.IntentDrained?
    ensures ServersLogged(log + [e], waiting)
  {
    forall t: nat ensures ServerLog(log + [e], t, At(waiting, t)) {
      assert ServerLog(log, t, At(waiting, t));
      OtherServerEvent(log, e, t, At(waiting, t));
    }
  }

  lemma BalancersNext(p: Topology, log: seq<PullEvent>, e: PullEvent, held: seq<seq<nat>>, b: nat, ids: seq<nat>)
    requires BalancersLogged(p, log, held) && b < |held| && BalancerLog(log + [e], b, InOrder(p, b), ids)
    requires (e.TaskEnqueued? || e.PullFulfilled?) && e.lb == b
    ensures BalancersLogged(p, log + [e], held[b := ids])
  {
    var next := held[b := ids];
    forall c: nat ensures BalancerLog(log + [e], c, InOrder(p, c), At(next, c)) {
      if c != b {
        assert At(next, c) == At(held, c);
        assert BalancerLog(log, c, InOrder(p, c), At(held, c));
        OtherBalancerEvent(log, e, c, InOrder(p, c), At(held, c));
      } else {
        assert At(next, c) == ids;
      }
    }
  }

  lemma BalancersKeep(p: Topology, log: seq<PullEvent>, e: PullEvent, held: seq<seq<nat>>)
    requires BalancersLogged(p, log, held) && !e.TaskEnqueued? && !e.PullFulfilled?
    ensures BalancersLogged(p, log + [e], held)
  {
    forall c: nat ensures BalancerLog(log + [e], c, InOrder(p, c), At(held, c)) {
      assert BalancerLog(log, c, InOrder(p, c), At(held, c));
      OtherBalancerEvent(log, e, c, InOrder(p, c), At(held, c));
    }
  }

  lemma EnqueueOk(l: Ledger, b: nat, id: nat)
    requires LedgerOk(l) && b < |l.held|
    ensures LedgerOk(Enqueue(l, b, id))
  {
    var e := TaskEnqueued(b, id, |l.held[b]|);
    assert BalancerLog(l.log, b, InOrder(l.topo, b), At(l.held, b));
    EnqueuedEvent(l.log, b, InOrder(l.topo, b), l.held[b], id);
    BalancersNext(l.topo, l.log, e, l.held, b, l.held[b] + [id]);
    ServersKeep(l.log, e, l.waiting);
    LawfulNext(l.topo, l.log, e);
    CountsNext(l.log, e, l.sent, l.queued, l.pulling);
  }

  lemma SendOk(l: Ledger, b: nat, s: nat, id: nat)
    requires LedgerOk(l)
    ensures LedgerOk(Send(l, b, s, id))
  {
    var e := IntentSent(b, s, id);
    BalancersKeep(l.topo, l.log, e, l.held);
    ServersKeep(l.log, e, l.waiting);
    LawfulNext(l.topo, l.log, e);
    CountsNext(l.log, e, l.sent, l.queued, l.pulling);
  }

  lemma QueueOk(l: Ledger, s: nat, it: PullIntent)
    requires LedgerOk(l) && s < |l.waiting|
    ensures LedgerOk(Queue(l, s, it))
  {
    var e := IntentQueued(s, it.senderId, it.requestId, |l.waiting[s]|);
    assert ServerLog(l.log, s, At(l.waiting, s));
    QueuedEvent(l.log, s, l.waiting[s], it);
    ServersNext(l.log, e, l.waiting, s, l.waiting[s] + [(it.senderId, it.requestId)]);
    BalancersKeep(l.topo, l.log, e, l.held);
    LawfulNext(l.topo, l.log, e);
    CountsNext(l.log, e, l.sent, l.queued, l.pulling);
  }

  lemma DrainOk(l: Ledger, s: nat, pending: nat, inFlight: nat, max: nat)
    requires LedgerOk(l) && s < |l.waiting| && l.waiting[s] != [] && inFlight + pending < max
    ensures LedgerOk(Drain(l, s, pending, inFlight, max))
  {
    var e := IntentDrained(s, l.waiting[s][0].0, l.waiting[s][0].1, |l.waiting[s]|, pending, inFlight, max);
    assert ServerLog(l.log, s, At(l.waiting, s));
    DrainedEvent(l.log, s, l.waiting[s], pending, inFlight, max);
    ServersNext(l.log, e, l.waiting, s, l.waiting[s][1..]);
    BalancersKeep(l.topo, l.log, e, l.held);
    LawfulNext(l.topo, l.log, e);
    CountsNext(l.log, e, l.sent, l.queued, l.pulling);
  }

  lemma FulfilOk(l: Ledger, b: nat, s: nat, j: nat, intentId: Option<nat>)
    requires LedgerOk(l) && b < |l.held| && j < |l.held[b]| && b < |l.topo.balancers|
    requires l.topo.balancers[b].cfg.policy == B.AmphiQueue
    requires if InOrder(l.topo, b) then j == 0 else intentId == Some(l.held[b][j])
    ensures LedgerOk(Fulfil(l, b, s, j, intentId))
  {
    var e := Fulfilment(b, s, l.held[b], j, intentId);
    assert BalancerLog(l.log, b, InOrder(l.topo, b), At(l.held, b));
    FulfilledLog(l.log, b, InOrder(l.topo, b), l.held[b], j, s, intentId);
    FulfilledLaws(l.log, b, InOrder(l.topo, b), l.held[b], j, s, intentId);
    BalancersNext(l.topo, l.log, e, l.held, b, RemoveAt(l.held[b], j));
    ServersKeep(l.log, e, l.waiting);
    LawfulNext(l.topo, l.log, e);
    CountsNext(l.log, e, l.sent, l.queued, l.pulling);
  }

  // The cluster's ledger

  function Held(l: B.Balancer): seq<nat>
  {
    if l.cfg.policy == B.AmphiQueue then B.Ids(l.queue) else []
  }

  function LedgerOf(g: Cluster): Ledger
  {
    Ledger(g.topo, g.log, |g.intents|, Sum(g.servers, IntentCount()), Sum(g.pulls, OfAmphi(g.topo)),
           seq(|g.servers|, s requires 0 <= s < |g.servers| => Pairs(g.servers[s].intents)),
           seq(|g.balancers|, b requires 0 <= b < |g.balancers| => Held(g.balancers[b])))
  }

  ghost predicate LogOk(g: Cluster)
  {
    LedgerOk(LedgerOf(g))
  }

  lemma LedgerAfterServer(g: Cluster, s: nat, fx: S.ServerEffects)
    requires s < |g.servers|
    ensures LedgerOf(AfterServer(g, s, fx)) == WithServer(LedgerOf(g), s, |g.servers[s].intents|, fx)
  {
    SumUpdate(g.servers, s, fx.server, IntentCount());
    SumConcat(g.pulls, fx.out.pulls, OfAmphi(g.topo));
  }

  lemma LedgerAfterBalancer(g: Cluster, b: nat, fx: B.Effects)
    requires b < |g.balancers|
    ensures LedgerOf(AfterBalancer(g, b, fx))
         == LedgerOf(g).(log := g.log + fx.out.audit, sent := |g.intents| + |fx.out.intents|,
                         held := LedgerOf(g).held[b := Held(fx.balancer)])
  {
  }

  // Handlers that the audit does not see

  ghost predicate Unseen(p: Topology, v: S.ServerState, fx: S.ServerEffects)
  {
    fx.server.intents == v.intents && fx.out.audit == [] && Sum(fx.out.pulls, OfAmphi(p)) == 0
  }

  lemma UnseenKeepsLedger(g: Cluster, g0: Cluster, s: nat, fx: S.ServerEffects)
    requires s < |g0.servers| && LedgerOf(g0) == LedgerOf(g) && Unseen(g.topo, g0.servers[s], fx)
    ensures LedgerOf(AfterServer(g0, s, fx)) == LedgerOf(g)
  {
    LedgerAfterServer(g0, s, fx);
    assert LedgerOf(g0).waiting[s := Pairs(g0.servers[s].intents)] == LedgerOf(g0).waiting;
    assert g0.log + [] == g0.log;
  }

  lemma {:induction false} DrainUnseen(p: Topology, v: S.ServerState, fx: S.ServerEffects, now: Time)
    requires Unseen(p, v, fx)
    ensures Unseen(p, v, S.DrainQueue(fx, now))
    decreases |fx.server.queue|
  {
    var w := fx.server;
    if w.inFlight < w.cfg.maxConcurrency && w.queue != [] {
      DrainUnseen(p, v, S.BeginService(S.TakeHead(fx, now), w.queue[0], now), now);
    }
  }

  lemma TaskUnseen(p: Topology, v: S.ServerState, task: Task, now: Time)
    requires v.Valid()
    ensures Unseen(p, v, S.Input(v, task, now))
  {
    if v.cfg.mode == S.Push && v.inFlight >= v.cfg.maxConcurrency {
      EvictionUnseen(p, v, S.Begin(S.SampleLevel(v.(queue := v.queue + [task]), now)), task.start, now);
    }
  }

  lemma EvictionUnseen(p: Topology, v: S.ServerState, fx: S.ServerEffects, start: Time, now: Time)
    requires fx.server.queue != [] && Unseen(p, v, fx)
    ensures Unseen(p, v, S.ApplyEviction(fx, start, now))
  {
  }

  lemma {:induction false} WaitingUnseen(fx: B.Effects, now: Time)
    requires fx.Valid()
    ensures B.DispatchWaiting(fx, now).out.audit == fx.out.audit
    ensures B.DispatchWaiting(fx, now).out.intents == fx.out.intents
    decreases |fx.balancer.waiting|
  {
    var l := fx.balancer;
    if l.waiting != [] && l.queue != [] {
      var popped := fx.(balancer := l.(waiting := l.waiting[1..]));
      WaitingUnseen(B.DispatchHead(popped, l.waiting[0], now), now);
    }
  }

  lemma HomePullUnseen(p: Topology, s: nat, pull: PullRequest)
    requires Wired(p) && s < |p.servers| && p.servers[s].mode == S.Centralized
    ensures Sum([PullMsg(p.servers[s].homeLb, pull)], OfAmphi(p)) == 0
  {
    assert ServerWired(p, s);
    SumOne(PullMsg(p.servers[s].homeLb, pull), OfAmphi(p));
  }

  // Handlers that it sees

  /** The drain a server makes when it has a slot and an intent. */
  function DrainedLedger(l: Ledger, s: nat, v: S.ServerState): Ledger
    requires s < |l.waiting| && l.waiting[s] == Pairs(v.intents)
  {
    if v.inFlight + v.pendingPulls >= v.cfg.maxConcurrency || v.intents == [] then l
    else Drain(l, s, v.pendingPulls, v.inFlight, v.cfg.maxConcurrency)
  }

  lemma DrainIntentsEffect(p: Topology, fx: S.ServerEffects)
    requires fx.server.inFlight + fx.server.pendingPulls < fx.server.cfg.maxConcurrency && fx.server.intents != []
    requires fx.server.intents[0].senderId < fx.server.cfg.nBalancers
    requires fx.server.intents[0].senderId < |p.balancers|
    requires p.balancers[fx.server.intents[0].senderId].cfg.policy == B.AmphiQueue
    ensures var r, v := S.DrainIntents(fx), fx.server;
            && r.server.intents == v.intents[1..]
            && r.out.audit == fx.out.audit + [IntentDrained(v.cfg.index, v.intents[0].senderId, v.intents[0].requestId,
                                                            |v.intents|, v.pendingPulls, v.inFlight, v.cfg.maxConcurrency)]
            && Sum(r.out.pulls, OfAmphi(p)) == Sum(fx.out.pulls, OfAmphi(p)) + 1
  {
    var it := fx.server.intents[0];
    SumAppend(fx.out.pulls, PullMsg(it.senderId, PullRequest(fx.server.cfg.index, Some(it.requestId))), OfAmphi(p));
  }

  ghost predicate AnswersAmphi(p: Topology, v: S.ServerState)
  {
    v.intents != [] ==>
      && v.intents[0].senderId < v.cfg.nBalancers && v.intents[0].senderId < |p.balancers|
      && p.balancers[v.intents[0].senderId].cfg.policy == B.AmphiQueue
  }

  /** The ledger after a server's effects. */
  function WithServer(l: Ledger, s: nat, before: nat, fx: S.ServerEffects): Ledger
    requires s < |l.waiting|
  {
    l.(log := l.log + fx.out.audit, queued := l.queued - before + |fx.server.intents|,
       pulling := l.pulling + Sum(fx.out.pulls, OfAmphi(l.topo)), waiting := l.waiting[s := Pairs(fx.server.intents)])
  }

  lemma OneDrained(l: Ledger, s: nat, before: nat, fx: S.ServerEffects, r: S.ServerEffects, event: PullEvent)
    requires s < |l.waiting| && fx.server.intents != [] && r.server.intents == fx.server.intents[1..]
    requires var v := fx.server;
             event == IntentDrained(s, v.intents[0].senderId, v.intents[0].requestId, |v.intents|,
                                    v.pendingPulls, v.inFlight, v.cfg.maxConcurrency)
    requires r.out.audit == fx.out.audit + [event]
    requires Sum(r.out.pulls, OfAmphi(l.topo)) == Sum(fx.out.pulls, OfAmphi(l.topo)) + 1
    ensures var v := fx.server;
            WithServer(l, s, before, r)
              == Drain(WithServer(l, s, before, fx), s, v.pendingPulls, v.inFlight, v.cfg.maxConcurrency)
  {
    var v := fx.server;
    assert Pairs(v.intents)[1..] == Pairs(v.intents[1..]);
    assert l.waiting[s := Pairs(v.intents)][s := Pairs(v.intents[1..])] == l.waiting[s := Pairs(v.intents[1..])];
    assert l.log + (fx.out.audit + [event]) == (l.log + fx.out.audit) + [event];
  }

  lemma AnsweredLedger(l: Ledger, s: nat, before: nat, fx: S.ServerEffects)
    requires s < |l.waiting| && fx.server.cfg.index == s && AnswersAmphi(l.topo, fx.server)
    requires fx.server.inFlight + fx.server.pendingPulls < fx.server.cfg.maxConcurrency && fx.server.intents != []
    ensures WithServer(l, s, before, S.DrainIntents(fx)) == DrainedLedger(WithServer(l, s, before, fx), s, fx.server)
  {
    var v := fx.server;
    DrainIntentsEffect(l.topo, fx);
    OneDrained(l, s, before, fx, S.DrainIntents(fx),
               IntentDrained(s, v.intents[0].senderId, v.intents[0].requestId, |v.intents|,
                             v.pendingPulls, v.inFlight, v.cfg.maxConcurrency));
  }

  lemma DrainIntentsLedger(g: Cluster, s: nat, fx: S.ServerEffects)
    requires s < |g.servers| && fx.server.cfg.index == s && AnswersAmphi(g.topo, fx.server)
    ensures LedgerOf(AfterServer(g, s, fx)).waiting[s] == Pairs(fx.server.intents)
    ensures LedgerOf(AfterServer(g, s, S.DrainIntents(fx))) == DrainedLedger(LedgerOf(AfterServer(g, s, fx)), s, fx.server)
  {
    LedgerAfterServer(g, s, fx);
    LedgerAfterServer(g, s, S.DrainIntents(fx));
    if fx.server.inFlight + fx.server.pendingPulls < fx.server.cfg.maxConcurrency && fx.server.intents != [] {
      AnsweredLedger(LedgerOf(g), s, |g.servers[s].intents|, fx);
    }
  }

  lemma DrainedLedgerOk(l: Ledger, s: nat, v: S.ServerState)
    requires LedgerOk(l) && s < |l.waiting| && l.waiting[s] == Pairs(v.intents)
    ensures LedgerOk(DrainedLedger(l, s, v))
  {
    if v.inFlight + v.pendingPulls < v.cfg.maxConcurrency && v.intents != [] {
      DrainOk(l, s, v.pendingPulls, v.inFlight, v.cfg.maxConcurrency);
    }
  }

  lemma QueuedLedger(g: Cluster, g0: Cluster, s: nat, it: PullIntent, fx: S.ServerEffects)
    requires s < |g.servers| && LedgerOf(g0) == LedgerOf(g).(sent := |g.intents| - 1) && g0.servers == g.servers
    requires fx.server.intents == g.servers[s].intents + [it] && fx.out.pulls == []
    requires fx.out.audit == [IntentQueued(s, it.senderId, it.requestId, |g.servers[s].intents|)]
    ensures LedgerOf(AfterServer(g0, s, fx)) == Queue(LedgerOf(g), s, it)
  {
    LedgerAfterServer(g0, s, fx);
    var intents := g.servers[s].intents;
    assert Pairs(intents + [it]) == Pairs(intents) + [(it.senderId, it.requestId)];
  }

  lemma IntentLogged(g: Cluster, i: nat)
    requires WellFormed(g) && LogOk(g) && i < |g.intents|
    ensures LogOk(IntentDelivered(g, i))
  {
    var m := g.intents[i];
    assert IntentAt(g.topo, m.server, m.intent) && ServerWired(g.topo, m.server);
    var v := g.servers[m.server];
    assert v.intents != [] ==> IntentAt(g.topo, m.server, v.intents[0]);
    var g0 := g.(intents := RemoveAt(g.intents, i));
    var event := IntentQueued(m.server, m.intent.senderId, m.intent.requestId, |v.intents|);
    var queued := S.ServerEffects(v.(intents := v.intents + [m.intent]), S.NOTHING.(audit := [event]));
    QueuedLedger(g, g0, m.server, m.intent, queued);
    QueueOk(LedgerOf(g), m.server, m.intent);
    DrainIntentsLedger(g0, m.server, queued);
    DrainedLedgerOk(LedgerOf(AfterServer(g0, m.server, queued)), m.server, queued.server);
  }

  lemma CompletionLogged(g: Cluster, i: nat)
    requires WellFormed(g) && LogOk(g) && i < |g.completions| && g.servers[g.completions[i].server].inFlight > 0
    ensures LogOk(CompletionFired(g, i))
  {
    var c := g.completions[i];
    assert CompletionAt(g.topo, c) && ServerWired(g.topo, c.server);
    var v := g.servers[c.server];
    var ended := S.Ended(v, c.task, c.at);
    assert Unseen(g.topo, v, ended);
    var g0 := g.(now := c.at, completions := RemoveAt(g.completions, i));
    match v.cfg.mode {
      case Push =>
        DrainUnseen(g.topo, v, ended, c.at);
        UnseenKeepsLedger(g, g0, c.server, S.DrainQueue(ended, c.at));
      case Centralized =>
        HomePullUnseen(g.topo, c.server, PullRequest(v.cfg.index, None));
        UnseenKeepsLedger(g, g0, c.server, S.Complete(v, c.task, c.at));
      case AmphiQueue =>
        assert v.intents != [] ==> IntentAt(g.topo, c.server, v.intents[0]);
        UnseenKeepsLedger(g, g0, c.server, ended);
        DrainIntentsLedger(g0, c.server, ended);
        DrainedLedgerOk(LedgerOf(AfterServer(g0, c.server, ended)), c.server, ended.server);
    }
  }

  lemma TaskLogged(g: Cluster, i: nat)
    requires WellFormed(g) && LogOk(g) && i < |g.tasks|
    ensures LogOk(TaskDelivered(g, i))
  {
    var m := g.tasks[i];
    assert TaskAt(g.topo, m.server, m.task);
    TaskUnseen(g.topo, g.servers[m.server], m.task, g.now);
    UnseenKeepsLedger(g, g.(tasks := RemoveAt(g.tasks, i)), m.server, S.Input(g.servers[m.server], m.task, g.now));
  }

  lemma InitialPullLogged(g: Cluster, i: nat)
    requires WellFormed(g) && LogOk(g) && i < |g.initialPulls|
    ensures LogOk(InitialPullFired(g, i))
  {
    var q := g.initialPulls[i];
    assert ServerWired(g.topo, q.server);
    HomePullUnseen(g.topo, q.server, PullRequest(q.server, None));
    UnseenKeepsLedger(g, g.(now := q.at, initialPulls := RemoveAt(g.initialPulls, i)), q.server,
                      S.RequestPull(g.servers[q.server]));
  }

  lemma TimerLogged(g: Cluster, i: nat)
    requires WellFormed(g) && LogOk(g) && i < |g.timers|
    ensures LogOk(TimerFired(g, i))
  {
    var e := g.timers[i];
    assert TimerAt(g.topo, e);
    assert Unseen(g.topo, g.servers[e.server], TimerEffects(g.servers[e.server], e));
    UnseenKeepsLedger(g, g.(now := e.at, timers := RemoveAt(g.timers, i)), e.server,
                      TimerEffects(g.servers[e.server], e));
  }

  lemma AmphiInputLedger(g: Cluster, b: nat, task: Task, now: Time, pick: nat)
    requires b < |g.balancers| && g.balancers[b].Valid() && CanPick(g, b, pick)
    requires g.balancers[b].cfg.policy == B.AmphiQueue && g.balancers[b].cfg.lbId == b
    ensures var l := g.balancers[b];
            LedgerOf(AfterBalancer(g, b, B.Input(l, task, now, pick)))
              == Send(Enqueue(LedgerOf(g), b, l.nextTaskId), b, l.cfg.serverIndices[pick], l.nextTaskId)
  {
    var l := g.balancers[b];
    var fx := B.Input(l, task, now, pick);
    LedgerAfterBalancer(g, b, fx);
    var s := l.cfg.serverIndices[pick];
    assert Held(fx.balancer) == Held(l) + [l.nextTaskId];
    var enq, sent := TaskEnqueued(b, l.nextTaskId, |l.queue|), IntentSent(b, s, l.nextTaskId);
    assert fx.out.audit == [enq] + [sent];
    assert g.log + ([enq] + [sent]) == (g.log + [enq]) + [sent];
  }

  lemma AmphiInputLogged(g: Cluster, b: nat, task: Task, now: Time, pick: nat)
    requires b < |g.balancers| && g.balancers[b].Valid() && CanPick(g, b, pick) && LogOk(g)
    requires g.balancers[b].cfg.policy == B.AmphiQueue && g.balancers[b].cfg.lbId == b
    ensures LogOk(AfterBalancer(g, b, B.Input(g.balancers[b], task, now, pick)))
  {
    var l := g.balancers[b];
    AmphiInputLedger(g, b, task, now, pick);
    EnqueueOk(LedgerOf(g), b, l.nextTaskId);
    SendOk(Enqueue(LedgerOf(g), b, l.nextTaskId), b, l.cfg.serverIndices[pick], l.nextTaskId);
  }

  lemma SilentBalancer(g: Cluster, b: nat, fx: B.Effects)
    requires b < |g.balancers| && g.balancers[b].cfg.policy != B.AmphiQueue && fx.balancer.cfg == g.balancers[b].cfg
    requires fx.out.audit == [] && fx.out.intents == [] && LogOk(g)
    ensures LogOk(AfterBalancer(g, b, fx))
  {
    LedgerAfterBalancer(g, b, fx);
    assert LedgerOf(g).held[b := []] == LedgerOf(g).held;
    assert g.log + [] == g.log;
  }

  lemma InputLogged(g: Cluster, g0: Cluster, b: nat, task: Task, now: Time, pick: nat)
    requires WellFormed(g) && LogOk(g) && CanPick(g, b, pick)
    requires g0.balancers == g.balancers && LedgerOf(g0) == LedgerOf(g)
    ensures LogOk(AfterBalancer(g0, b, B.Input(g.balancers[b], task, now, pick)))
  {
    var l := g.balancers[b];
    assert BalancerWired(g.topo, b);
    if l.cfg.policy == B.AmphiQueue {
      AmphiInputLogged(g0, b, task, now, pick);
    } else {
      if l.cfg.policy == B.Centralized {
        WaitingUnseen(B.Start(B.Enqueued(l, task, now)), now);
      }
      SilentBalancer(g0, b, B.Input(l, task, now, pick));
    }
  }

  lemma FulfilLedger(g: Cluster, g0: Cluster, b: nat, pull: PullRequest, j: nat)
    requires b < |g.balancers| && g.balancers[b].Valid() && pull.serverIdx < |g.balancers[b].localInflight|
    requires j < |g.balancers[b].queue|
    requires g.balancers[b].cfg.policy == B.AmphiQueue && g.balancers[b].cfg.lbId == b
    requires g0.balancers == g.balancers && LedgerOf(g0) == LedgerOf(g).(pulling := LedgerOf(g).pulling - 1)
    ensures LedgerOf(AfterBalancer(g0, b, B.Fulfil(g.balancers[b], pull, j, g0.now)))
         == Fulfil(LedgerOf(g), b, pull.serverIdx, j, pull.requestId)
  {
    var l := g.balancers[b];
    var fx := B.Fulfil(l, pull, j, g0.now);
    LedgerAfterBalancer(g0, b, fx);
    assert Held(fx.balancer) == RemoveAt(Held(l), j);
    assert fx.out.audit == [Fulfilment(b, pull.serverIdx, Held(l), j, pull.requestId)];
  }

  lemma PullLeaves(g: Cluster, i: nat)
    requires i < |g.pulls|
    ensures LedgerOf(g.(pulls := RemoveAt(g.pulls, i)))
         == LedgerOf(g).(pulling := LedgerOf(g).pulling - OfAmphi(g.topo)(g.pulls[i]))
  {
    SumRemove(g.pulls, i, OfAmphi(g.topo));
  }

  lemma PullLogged(g: Cluster, i: nat)
    requires WellFormed(g) && Claims.ClaimsOk(g) && LogOk(g) && i < |g.pulls|
    ensures LogOk(PullDelivered(g, i))
  {
    var m := g.pulls[i];
    assert PullAt(g.topo, m) && BalancerWired(g.topo, m.lb);
    var l := g.balancers[m.lb];
    var g0 := g.(pulls := RemoveAt(g.pulls, i));
    PullLeaves(g, i);
    if l.cfg.policy == B.AmphiQueue {
      Claims.PullFindsTask(g, i);
      var j := B.PullIndex(l, m.pull);
      FulfilLedger(g, g0, m.lb, m.pull, j);
      FulfilOk(LedgerOf(g), m.lb, m.pull.serverIdx, j, m.pull.requestId);
    } else {
      SilentBalancer(g0, m.lb, B.Pull(l, m.pull, g.now).effects);
    }
  }

  lemma ReleaseLogged(g: Cluster, i: nat)
    requires WellFormed(g) && LogOk(g) && i < |g.releases|
    ensures LogOk(ReleaseDelivered(g, i))
  {
    var m := g.releases[i];
    assert ReleaseAt(g.topo, m);
    var fx := B.Start(B.Release(g.balancers[m.lb], m.server));
    LedgerAfterBalancer(g.(releases := RemoveAt(g.releases, i)), m.lb, fx);
    assert LedgerOf(g).held[m.lb := Held(fx.balancer)] == LedgerOf(g).held;
    assert g.log + [] == g.log;
  }

  lemma InputStepLogged(g: Cluster, step: Step)
    requires WellFormed(g) && LogOk(g) && Enabled(g, step)
    requires step.Arrive? || step.DeliverEvicted? || step.DeliverShed?
    ensures LogOk(Next(g, step))
  {
    match step
    case Arrive(i, pick) =>
      var a := g.arrivals[i];
      InputLogged(g, g.(now := a.at, arrivals := RemoveAt(g.arrivals, i)), a.lb, a.task, a.at, pick);
    case DeliverEvicted(i, pick) =>
      InputLogged(g, g.(evicted := RemoveAt(g.evicted, i)), g.topo.expressLb, g.evicted[i], g.now, pick);
    case DeliverShed(i, pick) =>
      InputLogged(g, g.(shed := RemoveAt(g.shed, i)), g.shed[i].lb, g.shed[i].task, g.now, pick);
  }

  /** Every handler records what the laws allow. */
  lemma NextKeepsLog(g: Cluster, step: Step)
    requires WellFormed(g) && Claims.ClaimsOk(g) && LogOk(g) && Enabled(g, step)
    ensures LogOk(Next(g, step))
  {
    match step
    case DeliverIntent(i) => IntentLogged(g, i);
    case FireCompletion(i) => CompletionLogged(g, i);
    case DeliverPull(i) => PullLogged(g, i);
    case DeliverRelease(i) => ReleaseLogged(g, i);
    case DeliverTask(i) => TaskLogged(g, i);
    case FireInitialPull(i) => InitialPullLogged(g, i);
    case FireTimer(i) => TimerLogged(g, i);
    case _ => InputStepLogged(g, step);
  }

  // Whole runs

  lemma InitialLog(g: Cluster)
    requires Initial(g)
    ensures LogOk(g)
  {
    var l := LedgerOf(g);
    SumZero(g.servers, IntentCount());
    forall b: nat | b < |g.balancers| ensures At(l.held, b) == [] {
      assert FreshBalancer(g.balancers[b]);
    }
    forall s: nat ensures ServerLog(l.log, s, At(l.waiting, s)) {
    }
    forall b: nat ensures BalancerLog(l.log, b, InOrder(l.topo, b), At(l.held, b)) {
      assert At(l.held, b) == [];
    }
  }

  lemma {:induction false} EveryRunIsLogged(states: seq<Cluster>, steps: seq<Step>)
    requires Run(states, steps)
    ensures LogOk(Runs.Final(states))
    decreases |steps|
  {
    if steps == [] {
      InitialLog(states[0]);
    } else {
      var n := |steps| - 1;
      Runs.RunPrefix(states, steps);
      EveryRunIsLogged(states[..|steps|], steps[..n]);
      Runs.EveryRunIsSafe(states[..|steps|], steps[..n]);
      NextKeepsLog(Runs.Final(states[..|steps|]), steps[n]);
    }
  }

  ghost predicate ToAmphi(p: Topology, a: Arrival)
  {
    a.lb < |p.balancers| && p.balancers[a.lb].cfg.policy == B.AmphiQueue
  }

  /** An AmphiQueue client has a request still to come, or one has come and its intent is in the trace. */
  ghost predicate Exercised(g: Cluster)
  {
    (exists a :: a in g.arrivals && ToAmphi(g.topo, a)) || Pick(g.log, Sends()) != []
  }

  lemma {:induction false} PickGrows(a: seq<PullEvent>, b: seq<PullEvent>)
    requires Pick(a, Sends()) != []
    ensures Pick(a + b, Sends()) != []
  {
    if b == [] {
      assert a + b == a;
    } else {
      PickGrows(a, b[..|b| - 1]);
      assert a + b == (a + b[..|b| - 1]) + [b[|b| - 1]];
      PickAppend(a + b[..|b| - 1], b[|b| - 1], Sends());
    }
  }

  lemma ArriveExercises(g: Cluster, i: nat, pick: nat)
    requires WellFormed(g) && i < |g.arrivals| && CanPick(g, g.arrivals[i].lb, pick) && Exercised(g)
    ensures Exercised(Arrived(g, i, pick))
  {
    var a := g.arrivals[i];
    var h := Arrived(g, i, pick);
    assert BalancerWired(g.topo, a.lb);
    if Pick(g.log, Sends()) != [] {
      PickGrows(g.log, B.Input(g.balancers[a.lb], a.task, a.at, pick).out.audit);
    } else if ToAmphi(g.topo, a) {
      var g0 := g.(now := a.at, arrivals := RemoveAt(g.arrivals, i));
      AmphiInputLedger(g0, a.lb, a.task, a.at, pick);
      var id := g.balancers[a.lb].nextTaskId;
      var l := Enqueue(LedgerOf(g0), a.lb, id);
      PickAppend(l.log, IntentSent(a.lb, g.balancers[a.lb].cfg.serverIndices[pick], id), Sends());
    } else {
      var other :| other in g.arrivals && ToAmphi(g.topo, other);
      assert other in RemoveAt(g.arrivals, i);
    }
  }

  lemma LogGrows(g: Cluster, step: Step)
    requires WellFormed(g) && Enabled(g, step)
    ensures g.log <= Next(g, step).log && Next(g, step).topo == g.topo
    ensures !step.Arrive? ==> Next(g, step).arrivals == g.arrivals
  {
  }

  lemma NextExercised(g: Cluster, step: Step)
    requires WellFormed(g) && Enabled(g, step) && Exercised(g)
    ensures Exercised(Next(g, step))
  {
    if step.Arrive? {
      ArriveExercises(g, step.i, step.pick);
    } else {
      LogGrows(g, step);
      if Pick(g.log, Sends()) != [] {
        var h := Next(g, step);
        assert h.log == g.log + h.log[|g.log|..];
        PickGrows(g.log, h.log[|g.log|..]);
      }
    }
  }

  lemma {:induction false} RunExercised(states: seq<Cluster>, steps: seq<Step>)
    requires Run(states, steps) && Exercised(states[0])
    ensures Exercised(Runs.Final(states))
    decreases |steps|
  {
    if steps != [] {
      Runs.RunPrefix(states, steps);
      RunExercised(states[..|steps|], steps[..|steps| - 1]);
      NextExercised(Runs.Final(states[..|steps|]), steps[|steps| - 1]);
    }
  }

  /** The run has ended and an AmphiQueue client took part in it. */
  ghost predicate Finished(states: seq<Cluster>, steps: seq<Step>)
  {
    && Run(states, steps) && WellFormed(Runs.Final(states)) && Runs.Stuck(Runs.Final(states))
    && (exists a :: a in states[0].arrivals && ToAmphi(states[0].topo, a))
  }

  /** The common validation accepts the trace of every completed run. */
  lemma CommonAudit(states: seq<Cluster>, steps: seq<Step>)
    requires Finished(states, steps)
    ensures AcceptedCommon(Runs.Final(states).log) && Lawful(Runs.Final(states).topo, Runs.Final(states).log)
  {
    var g := Runs.Final(states);
    EveryRunIsLogged(states, steps);
    RunExercised(states, steps);
    Runs.StuckMeansComplete(states, steps, (_: nat, _: Time, _: nat) => 0);
    EmptyLedger(g);
    var l := LedgerOf(g);
    forall s: nat ensures |Pick(g.log, DrainedAt(s))| == |Pick(g.log, QueuedAt(s))| {
      assert ServerLog(l.log, s, At(l.waiting, s));
    }
    forall b: nat ensures |Pick(g.log, PulledFrom(b))| == |Pick(g.log, EnqueuedBy(b))| {
      assert BalancerLog(l.log, b, InOrder(l.topo, b), At(l.held, b));
      Lengths(l.log, b, At(l.held, b));
    }
  }

  lemma EmptyLedger(g: Cluster)
    requires Progress.Over(g) && Progress.Settled(g)
    ensures var l := LedgerOf(g);
            && l.sent == l.queued == l.pulling == 0
            && (forall s: nat :: At(l.waiting, s) == []) && (forall b: nat :: At(l.held, b) == [])
  {
    forall s | 0 <= s < |g.servers| ensures g.servers[s].intents == [] {
      assert Progress.ServerSettled(g.servers[s]);
    }
    SumZero(g.servers, IntentCount());
    forall b | 0 <= b < |g.balancers| ensures g.balancers[b].queue == [] {
      assert Progress.BalancerSettled(g.balancers[b]);
    }
  }

  /** Bound mode: the bound validation accepts it. */
  lemma BoundAudit(states: seq<Cluster>, steps: seq<Step>)
    requires Finished(states, steps) && AllBound(Runs.Final(states).topo)
    ensures AcceptedBound(Runs.Final(states).log)
  {
    CommonAudit(states, steps);
  }

  /** Unbound mode: the first-come replay accepts it, and the whole validation does exactly when some pull took
      another task than its intent named. */
  lemma NoBindAudit(states: seq<Cluster>, steps: seq<Step>)
    requires Finished(states, steps) && AllUnbound(Runs.Final(states).topo)
    ensures var log := Runs.Final(states).log;
            Throughout(log, Fcfs) && (AcceptedNoBind(log) <==> SawMismatch(log))
  {
    CommonAudit(states, steps);
  }
}
