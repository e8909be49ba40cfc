/** The AmphiQueue protocol. Every queued task of a balancer is claimed exactly once, by an intent in transit,
    an intent queued at a server, or a pull in transit. So a pull always finds a task, in bound mode the very
    task it names, and the program never aborts. The claims at each server are what the balancer's table of
    pull-intent loads counts. */
module Claims {
  import opened Domain
  import opened Sums
  import opened Clusters
  import B = Balancers
  import S = Servers

  /** A weight for the claim of a balancer on a request, held at a server: (server, sender, request). */
  type Claim = (nat, nat, nat) -> int

  function ById(b: nat, id: nat): Claim
  {
    (_: nat, sender: nat, request: nat) => if sender == b && request == id then 1 else 0
  }

  function BySender(b: nat): Claim
  {
    (_: nat, sender: nat, _: nat) => if sender == b then 1 else 0
  }

  function BySenderAt(b: nat, s: nat): Claim
  {
    (server: nat, sender: nat, _: nat) => if sender == b && server == s then 1 else 0
  }

  function OfIntent(c: Claim, s: nat): PullIntent -> int
  {
    (it: PullIntent) => c(s, it.senderId, it.requestId)
  }

  function OfIntentMsg(c: Claim): IntentMsg -> int
  {
    (m: IntentMsg) => c(m.server, m.intent.senderId, m.intent.requestId)
  }

  function OfPull(c: Claim): PullMsg -> int
  {
    (m: PullMsg) => if m.pull.requestId.Some? then c(m.pull.serverIdx, m.lb, m.pull.requestId.value) else 0
  }

  function QueuedIntents(c: Claim): S.ServerState -> int
  {
    (v: S.ServerState) => Sum(v.intents, OfIntent(c, v.cfg.index))
  }

  ghost function Claimed(g: Cluster, c: Claim): int
  {
    Sum(g.intents, OfIntentMsg(c)) + Sum(g.servers, QueuedIntents(c)) + Sum(g.pulls, OfPull(c))
  }

  function HasId(id: nat): Task -> int
  {
    (t: Task) => if t.taskId == id then 1 else 0
  }

  /** A bound balancer's queue holds each request exactly as often as it is claimed; an unbound balancer's
      queue is as long as the number of its claims. Its load for a server counts its claims there. */
  ghost predicate ClaimsAt(g: Cluster, b: nat)
  {
    b < |g.balancers| &&
    var l := g.balancers[b];
    l.cfg.policy == B.AmphiQueue ==>
      && |l.queue| == Claimed(g, BySender(b))
      && (forall s: nat :: s < |l.intentLoad| ==> l.intentLoad[s] == Claimed(g, BySenderAt(b, s)))
      && (!l.cfg.unbound ==> forall id: nat :: Sum(l.queue, HasId(id)) == Claimed(g, ById(b, id)))
  }

  ghost predicate ClaimsOk(g: Cluster)
  {
    forall b: nat :: b < |g.balancers| ==> ClaimsAt(g, b)
  }

  // Servers pass claims on, from intents to pulls, without loss.

  ghost function AtServer(fx: S.ServerEffects, c: Claim): int
  {
    Sum(fx.server.intents, OfIntent(c, fx.server.cfg.index)) + Sum(fx.out.pulls, OfPull(c))
  }

  lemma DrainPassesClaims(fx: S.ServerEffects, c: Claim)
    requires fx.server.intents != [] ==> fx.server.intents[0].senderId < fx.server.cfg.nBalancers
    ensures AtServer(S.DrainIntents(fx), c) == AtServer(fx, c)
  {
    var s := fx.server;
    if s.inFlight + s.pendingPulls < s.cfg.maxConcurrency && s.intents != [] {
      var it := s.intents[0];
      SumRemove(s.intents, 0, OfIntent(c, s.cfg.index));
      assert RemoveAt(s.intents, 0) == s.intents[1..];
      SumAppend(fx.out.pulls, PullMsg(it.senderId, PullRequest(s.cfg.index, Some(it.requestId))), OfPull(c));
    }
  }

  lemma {:induction false} DrainQueueKeepsClaims(fx: S.ServerEffects, now: Time, c: Claim)
    ensures AtServer(S.DrainQueue(fx, now), c) == AtServer(fx, c)
    decreases |fx.server.queue|
  {
    var v := fx.server;
    if v.inFlight < v.cfg.maxConcurrency && v.queue != [] {
      DrainQueueKeepsClaims(S.BeginService(S.TakeHead(fx, now), v.queue[0], now), now, c);
    }
  }

  lemma ReceivePassesClaims(v: S.ServerState, it: PullIntent, c: Claim)
    requires v.cfg.mode == S.AmphiQueue && it.senderId < v.cfg.nBalancers
    requires v.intents != [] ==> v.intents[0].senderId < v.cfg.nBalancers
    ensures AtServer(S.ReceiveIntent(v, it), c) == Sum(v.intents, OfIntent(c, v.cfg.index)) + OfIntent(c, v.cfg.index)(it)
  {
    SumAppend(v.intents, it, OfIntent(c, v.cfg.index));
    var event := IntentQueued(v.cfg.index, it.senderId, it.requestId, |v.intents|);
    DrainPassesClaims(S.ServerEffects(v.(intents := v.intents + [it]), S.NOTHING.(audit := [event])), c);
  }

  lemma CompletePassesClaims(v: S.ServerState, task: Task, now: Time, c: Claim)
    requires v.inFlight > 0 && (v.intents != [] ==> v.intents[0].senderId < v.cfg.nBalancers)
    ensures AtServer(S.Complete(v, task, now), c) == Sum(v.intents, OfIntent(c, v.cfg.index))
  {
    var ended := S.Ended(v, task, now);
    match v.cfg.mode
    case Push => DrainQueueKeepsClaims(ended, now, c);
    case Centralized => SumOne(PullMsg(v.cfg.homeLb, PullRequest(v.cfg.index, None)), OfPull(c));
    case AmphiQueue => DrainPassesClaims(ended, c);
  }

  lemma RequestPullMakesNoClaim(v: S.ServerState, c: Claim)
    ensures AtServer(S.RequestPull(v), c) == Sum(v.intents, OfIntent(c, v.cfg.index))
  {
    SumOne(PullMsg(v.cfg.homeLb, PullRequest(v.cfg.index, None)), OfPull(c));
  }

  ghost predicate NoClaims(v: S.ServerState, fx: S.ServerEffects)
  {
    fx.server.intents == v.intents && fx.out.pulls == []
  }

  lemma EvictionMakesNoClaim(v: S.ServerState, fx: S.ServerEffects, start: Time, now: Time)
    requires NoClaims(v, fx) && fx.server.queue != []
    ensures NoClaims(v, S.ApplyEviction(fx, start, now))
  {
  }

  lemma TaskMakesNoClaim(v: S.ServerState, task: Task, now: Time)
    requires v.Valid()
    ensures NoClaims(v, S.Input(v, task, now))
  {
    if v.cfg.mode == S.Push && v.inFlight >= v.cfg.maxConcurrency {
      EvictionMakesNoClaim(v, S.Begin(S.SampleLevel(v.(queue := v.queue + [task]), now)), task.start, now);
    }
  }

  lemma ClaimedAfterServer(g: Cluster, s: nat, fx: S.ServerEffects, c: Claim)
    requires s < |g.servers|
    ensures Claimed(AfterServer(g, s, fx), c)
         == Claimed(g, c) - Sum(g.servers[s].intents, OfIntent(c, g.servers[s].cfg.index)) + AtServer(fx, c)
  {
    SumUpdate(g.servers, s, fx.server, QueuedIntents(c));
    SumConcat(g.pulls, fx.out.pulls, OfPull(c));
  }

  lemma ClaimedAfterBalancer(g: Cluster, b: nat, fx: B.Effects, c: Claim)
    requires b < |g.balancers|
    ensures Claimed(AfterBalancer(g, b, fx), c) == Claimed(g, c) + Sum(fx.out.intents, OfIntentMsg(c))
  {
    SumConcat(g.intents, fx.out.intents, OfIntentMsg(c));
  }

  // Balancers make one claim for each task they queue, and a fulfilled pull uses up one.

  lemma {:induction false} WaitingMakesNoClaim(fx: B.Effects, now: Time)
    requires fx.Valid()
    ensures B.DispatchWaiting(fx, now).out.intents == fx.out.intents
    decreases |fx.balancer.waiting|
  {
    var l := fx.balancer;
    if l.waiting != [] && l.queue != [] {
      var popped := fx.(balancer := l.(waiting := l.waiting[1..]));
      WaitingMakesNoClaim(B.DispatchHead(popped, l.waiting[0], now), now);
    }
  }

  lemma InputClaims(l: B.Balancer, task: Task, now: Time, pick: nat, c: Claim)
    requires l.Valid() && pick < |l.cfg.serverIndices|
    ensures var fx := B.Input(l, task, now, pick);
            Sum(fx.out.intents, OfIntentMsg(c))
              == if l.cfg.policy == B.AmphiQueue then c(l.cfg.serverIndices[pick], l.cfg.lbId, l.nextTaskId) else 0
    ensures l.cfg.policy == B.AmphiQueue ==>
              B.Input(l, task, now, pick).balancer.queue == l.queue + [task.(taskId := l.nextTaskId)]
  {
    match l.cfg.policy
    case Centralized => WaitingMakesNoClaim(B.Start(B.Enqueued(l, task, now)), now);
    case AmphiQueue =>
      SumOne(IntentMsg(l.cfg.serverIndices[pick], PullIntent(l.cfg.lbId, l.nextTaskId, 0)), OfIntentMsg(c));
      assert B.Input(l, task, now, pick).out.intents
          == [IntentMsg(l.cfg.serverIndices[pick], PullIntent(l.cfg.lbId, l.nextTaskId, 0))];
    case Push =>
  }

  /** A queue that holds an identifier has a first position for it. */
  lemma {:induction false} Found(q: seq<Task>, id: nat)
    requires Sum(q, HasId(id)) > 0
    ensures B.Position(B.Ids(q), id) < |q|
  {
    var i := SumPositive(q, HasId(id));
    assert B.Ids(q)[i] == id;
  }

  /** The task that a pull finds: the claim that the pull carries is a claim on a queued task. */
  lemma PullFindsTask(g: Cluster, i: nat)
    requires WellFormed(g) && ClaimsOk(g) && i < |g.pulls| && g.balancers[g.pulls[i].lb].cfg.policy == B.AmphiQueue
    ensures var m, l := g.pulls[i], g.balancers[g.pulls[i].lb];
            && B.PullIndex(l, m.pull) < |l.queue|
            && B.Pull(l, m.pull, g.now).Fulfilled?
            && (!l.cfg.unbound ==> Some(l.queue[B.PullIndex(l, m.pull)].taskId) == m.pull.requestId)
            && l.intentLoad[m.pull.serverIdx] > 0
  {
    var m := g.pulls[i];
    assert PullAt(g.topo, m) && ClaimsAt(g, m.lb);
    var l := g.balancers[m.lb];
    var id := m.pull.requestId.value;
    ClaimedAtLeast(g, i, BySender(m.lb));
    ClaimedAtLeast(g, i, ById(m.lb, id));
    ClaimedAtLeast(g, i, BySenderAt(m.lb, m.pull.serverIdx));
    if !l.cfg.unbound {
      Found(l.queue, id);
    }
  }

  lemma ClaimedAtLeast(g: Cluster, i: nat, c: Claim)
    requires i < |g.pulls| && forall x: nat, y: nat, z: nat :: c(x, y, z) >= 0
    ensures Claimed(g, c) >= OfPull(c)(g.pulls[i])
  {
    SumNonNegative(g.intents, OfIntentMsg(c));
    assert NonNegative(QueuedIntents(c)) by {
      forall v ensures QueuedIntents(c)(v) >= 0 { SumNonNegative(v.intents, OfIntent(c, v.cfg.index)); }
    }
    SumNonNegative(g.servers, QueuedIntents(c));
    SumAtLeast(g.pulls, i, OfPull(c));
  }

  // Steps

  /** A step that changes no balancer's queue and no number of claims. */
  lemma SameClaims(g: Cluster, h: Cluster, b: nat)
    requires ClaimsAt(g, b) && |h.balancers| == |g.balancers|
    requires h.balancers[b].cfg == g.balancers[b].cfg
    requires h.balancers[b].cfg.policy == B.AmphiQueue ==>
               h.balancers[b].queue == g.balancers[b].queue && h.balancers[b].intentLoad == g.balancers[b].intentLoad
    requires forall c: Claim :: Claimed(h, c) == Claimed(g, c)
    ensures ClaimsAt(h, b)
  {
  }

  lemma ServerStepClaims(g: Cluster, g0: Cluster, s: nat, fx: S.ServerEffects, b: nat)
    requires ClaimsAt(g, b) && s < |g0.servers| && g0.balancers == g.balancers && g0.servers == g.servers
    requires forall c: Claim ::
               Claimed(g0, c) - Sum(g.servers[s].intents, OfIntent(c, g.servers[s].cfg.index)) + AtServer(fx, c) == Claimed(g, c)
    ensures ClaimsAt(AfterServer(g0, s, fx), b)
  {
    forall c: Claim ensures Claimed(AfterServer(g0, s, fx), c) == Claimed(g, c) {
      ClaimedAfterServer(g0, s, fx, c);
    }
    SameClaims(g, AfterServer(g0, s, fx), b);
  }

  /** One more claim, for one more queued task. */
  ghost predicate Gained(l: B.Balancer, r: B.Balancer, server: nat, id: nat)
    requires server < |l.intentLoad|
  {
    && r.cfg == l.cfg && |r.queue| == |l.queue| + 1
    && (forall x: nat :: Sum(r.queue, HasId(x)) == Sum(l.queue, HasId(x)) + if x == id then 1 else 0)
    && r.intentLoad == l.intentLoad[server := l.intentLoad[server] + 1]
  }

  lemma InputGains(l: B.Balancer, task: Task, now: Time, pick: nat)
    requires l.Valid() && pick < |l.cfg.serverIndices| && l.cfg.policy == B.AmphiQueue
    ensures Gained(l, B.Input(l, task, now, pick).balancer, l.cfg.serverIndices[pick], l.nextTaskId)
  {
    var queued := task.(taskId := l.nextTaskId);
    forall x: nat ensures Sum(l.queue + [queued], HasId(x)) == Sum(l.queue, HasId(x)) + if x == l.nextTaskId then 1 else 0 {
      SumAppend(l.queue, queued, HasId(x));
    }
  }

  lemma ClaimMade(g: Cluster, after: Cluster, h: nat, server: nat, id: nat, b: nat)
    requires ClaimsAt(g, b) && |after.balancers| == |g.balancers| && (h != b ==> after.balancers[b] == g.balancers[b])
    requires forall c: Claim :: Claimed(after, c) == Claimed(g, c) + c(server, h, id)
    requires h == b ==> server < |g.balancers[b].intentLoad| && Gained(g.balancers[b], after.balancers[b], server, id)
    ensures ClaimsAt(after, b)
  {
  }

  lemma InputStepClaims(g: Cluster, g0: Cluster, h: nat, task: Task, now: Time, pick: nat, b: nat)
    requires WellFormed(g) && ClaimsAt(g, b) && CanPick(g, h, pick)
    requires g0.balancers == g.balancers && g0.servers == g.servers && g0.intents == g.intents && g0.pulls == g.pulls
    ensures ClaimsAt(AfterBalancer(g0, h, B.Input(g.balancers[h], task, now, pick)), b)
  {
    var l := g.balancers[h];
    assert BalancerWired(g.topo, h);
    var fx := B.Input(l, task, now, pick);
    var after := AfterBalancer(g0, h, fx);
    forall c: Claim
      ensures Claimed(after, c)
           == Claimed(g, c) + if l.cfg.policy == B.AmphiQueue then c(l.cfg.serverIndices[pick], h, l.nextTaskId) else 0
    {
      InputClaims(l, task, now, pick, c);
      ClaimedAfterBalancer(g0, h, fx, c);
    }
    if l.cfg.policy == B.AmphiQueue {
      InputGains(l, task, now, pick);
      ClaimMade(g, after, h, l.cfg.serverIndices[pick], l.nextTaskId, b);
    } else {
      SameClaims(g, after, b);
    }
  }

  lemma PullUsesClaim(g: Cluster, i: nat, c: Claim)
    requires WellFormed(g) && i < |g.pulls|
    requires B.Pull(g.balancers[g.pulls[i].lb], g.pulls[i].pull, g.now).Fulfilled?
    ensures Claimed(PullDelivered(g, i), c) == Claimed(g, c) - OfPull(c)(g.pulls[i])
  {
    var m := g.pulls[i];
    SumRemove(g.pulls, i, OfPull(c));
    ClaimedAfterBalancer(g.(pulls := RemoveAt(g.pulls, i)), m.lb, B.Pull(g.balancers[m.lb], m.pull, g.now).effects, c);
  }

  /** What a fulfilled AmphiQueue pull does to its balancer. */
  ghost predicate Took(l: B.Balancer, pull: PullRequest, r: B.Balancer)
    requires B.PullIndex(l, pull) < |l.queue| && pull.serverIdx < |l.intentLoad|
  {
    && r.cfg == l.cfg && |r.queue| == |l.queue| - 1
    && (forall id: nat :: Sum(r.queue, HasId(id)) == Sum(l.queue, HasId(id)) - HasId(id)(l.queue[B.PullIndex(l, pull)]))
    && r.intentLoad == l.intentLoad[pull.serverIdx := SaturatingSub(l.intentLoad[pull.serverIdx], 1)]
  }

  lemma FulfilTakes(l: B.Balancer, pull: PullRequest, now: Time)
    requires l.Valid() && pull.serverIdx < |l.localInflight| && l.cfg.policy == B.AmphiQueue
    requires B.PullIndex(l, pull) < |l.queue|
    ensures Took(l, pull, B.Pull(l, pull, now).effects.balancer)
  {
    var j := B.PullIndex(l, pull);
    forall id: nat ensures Sum(RemoveAt(l.queue, j), HasId(id)) == Sum(l.queue, HasId(id)) - HasId(id)(l.queue[j]) {
      SumRemove(l.queue, j, HasId(id));
    }
  }

  lemma ClaimSpent(g: Cluster, after: Cluster, m: PullMsg, b: nat)
    requires ClaimsAt(g, b) && |after.balancers| == |g.balancers|
    requires m.lb != b ==> after.balancers[b] == g.balancers[b]
    requires after.balancers[b].cfg == g.balancers[b].cfg
    requires forall c: Claim :: Claimed(after, c) == Claimed(g, c) - OfPull(c)(m)
    requires m.lb == b && g.balancers[b].cfg.policy == B.AmphiQueue ==>
               var l := g.balancers[b];
               && m.pull.requestId.Some? && B.PullIndex(l, m.pull) < |l.queue| && m.pull.serverIdx < |l.intentLoad|
               && l.intentLoad[m.pull.serverIdx] > 0
               && (!l.cfg.unbound ==> Some(l.queue[B.PullIndex(l, m.pull)].taskId) == m.pull.requestId)
               && Took(l, m.pull, after.balancers[b])
    ensures ClaimsAt(after, b)
  {
  }

  lemma AmphiPullClaims(g: Cluster, i: nat, b: nat)
    requires WellFormed(g) && ClaimsOk(g) && i < |g.pulls| && b < |g.balancers|
    requires g.balancers[g.pulls[i].lb].cfg.policy == B.AmphiQueue
    ensures ClaimsAt(PullDelivered(g, i), b)
  {
    var m := g.pulls[i];
    assert PullAt(g.topo, m) && ClaimsAt(g, b);
    PullFindsTask(g, i);
    FulfilTakes(g.balancers[m.lb], m.pull, g.now);
    var after := PullDelivered(g, i);
    forall c: Claim ensures Claimed(after, c) == Claimed(g, c) - OfPull(c)(m) {
      PullUsesClaim(g, i, c);
    }
    ClaimSpent(g, after, m, b);
  }

  lemma CentralPullClaims(g: Cluster, i: nat, b: nat)
    requires WellFormed(g) && ClaimsAt(g, b) && i < |g.pulls| && b < |g.balancers|
    requires g.balancers[g.pulls[i].lb].cfg.policy != B.AmphiQueue
    ensures ClaimsAt(PullDelivered(g, i), b)
  {
    assert PullAt(g.topo, g.pulls[i]);
    forall c: Claim ensures Claimed(PullDelivered(g, i), c) == Claimed(g, c) - OfPull(c)(g.pulls[i]) {
      PullUsesClaim(g, i, c);
    }
    ClaimSpent(g, PullDelivered(g, i), g.pulls[i], b);
  }

  lemma IntentStepClaims(g: Cluster, i: nat, b: nat)
    requires WellFormed(g) && ClaimsAt(g, b) && i < |g.intents|
    ensures ClaimsAt(IntentDelivered(g, i), b)
  {
    var m := g.intents[i];
    assert IntentAt(g.topo, m.server, m.intent) && ServerWired(g.topo, m.server);
    var v := g.servers[m.server];
    assert v.intents != [] ==> IntentAt(g.topo, m.server, v.intents[0]);
    var g0 := g.(intents := RemoveAt(g.intents, i));
    forall c: Claim
      ensures Claimed(g0, c) - Sum(v.intents, OfIntent(c, v.cfg.index)) + AtServer(S.ReceiveIntent(v, m.intent), c) == Claimed(g, c)
    {
      SumRemove(g.intents, i, OfIntentMsg(c));
      ReceivePassesClaims(v, m.intent, c);
    }
    ServerStepClaims(g, g0, m.server, S.ReceiveIntent(v, m.intent), b);
  }

  lemma CompletionStepClaims(g: Cluster, i: nat, b: nat)
    requires WellFormed(g) && ClaimsAt(g, b) && i < |g.completions|
    requires g.servers[g.completions[i].server].inFlight > 0
    ensures ClaimsAt(CompletionFired(g, i), b)
  {
    var e := g.completions[i];
    assert CompletionAt(g.topo, e) && ServerWired(g.topo, e.server);
    var v := g.servers[e.server];
    assert v.intents != [] ==> IntentAt(g.topo, e.server, v.intents[0]);
    var g0 := g.(now := e.at, completions := RemoveAt(g.completions, i));
    forall c: Claim
      ensures Claimed(g0, c) - Sum(v.intents, OfIntent(c, v.cfg.index)) + AtServer(S.Complete(v, e.task, e.at), c) == Claimed(g, c)
    {
      CompletePassesClaims(v, e.task, e.at, c);
    }
    ServerStepClaims(g, g0, e.server, S.Complete(v, e.task, e.at), b);
  }

  lemma TaskStepClaims(g: Cluster, i: nat, b: nat)
    requires WellFormed(g) && ClaimsAt(g, b) && i < |g.tasks|
    ensures ClaimsAt(TaskDelivered(g, i), b)
  {
    var m := g.tasks[i];
    assert TaskAt(g.topo, m.server, m.task);
    TaskMakesNoClaim(g.servers[m.server], m.task, g.now);
    ServerStepClaims(g, g.(tasks := RemoveAt(g.tasks, i)), m.server, S.Input(g.servers[m.server], m.task, g.now), b);
  }

  lemma InitialPullStepClaims(g: Cluster, i: nat, b: nat)
    requires WellFormed(g) && ClaimsAt(g, b) && i < |g.initialPulls|
    ensures ClaimsAt(InitialPullFired(g, i), b)
  {
    var q := g.initialPulls[i];
    var v := g.servers[q.server];
    forall c: Claim ensures AtServer(S.RequestPull(v), c) == Sum(v.intents, OfIntent(c, v.cfg.index)) {
      RequestPullMakesNoClaim(v, c);
    }
    ServerStepClaims(g, g.(now := q.at, initialPulls := RemoveAt(g.initialPulls, i)), q.server, S.RequestPull(v), b);
  }

  lemma TimerStepClaims(g: Cluster, i: nat, b: nat)
    requires WellFormed(g) && ClaimsAt(g, b) && i < |g.timers|
    ensures ClaimsAt(TimerFired(g, i), b)
  {
    var e := g.timers[i];
    assert TimerAt(g.topo, e);
    assert NoClaims(g.servers[e.server], TimerEffects(g.servers[e.server], e));
    ServerStepClaims(g, g.(now := e.at, timers := RemoveAt(g.timers, i)), e.server,
                     TimerEffects(g.servers[e.server], e), b);
  }

  lemma ReleaseStepClaims(g: Cluster, i: nat, b: nat)
    requires WellFormed(g) && ClaimsAt(g, b) && i < |g.releases|
    ensures ClaimsAt(ReleaseDelivered(g, i), b)
  {
    var m := g.releases[i];
    assert ReleaseAt(g.topo, m);
    forall c: Claim ensures Claimed(ReleaseDelivered(g, i), c) == Claimed(g, c) {
      ClaimedAfterBalancer(g.(releases := RemoveAt(g.releases, i)), m.lb,
                           B.Start(B.Release(g.balancers[m.lb], m.server)), c);
    }
    SameClaims(g, ReleaseDelivered(g, i), b);
  }

  lemma ArriveClaims(g: Cluster, i: nat, pick: nat, b: nat)
    requires WellFormed(g) && ClaimsAt(g, b) && i < |g.arrivals| && CanPick(g, g.arrivals[i].lb, pick)
    ensures ClaimsAt(Arrived(g, i, pick), b)
  {
    var a := g.arrivals[i];
    InputStepClaims(g, g.(now := a.at, arrivals := RemoveAt(g.arrivals, i)), a.lb, a.task, a.at, pick, b);
  }

  lemma EvictedClaims(g: Cluster, i: nat, pick: nat, b: nat)
    requires WellFormed(g) && ClaimsAt(g, b) && i < |g.evicted| && CanPick(g, g.topo.expressLb, pick)
    ensures ClaimsAt(EvictedDelivered(g, i, pick), b)
  {
    InputStepClaims(g, g.(evicted := RemoveAt(g.evicted, i)), g.topo.expressLb, g.evicted[i], g.now, pick, b);
  }

  lemma ShedClaims(g: Cluster, i: nat, pick: nat, b: nat)
    requires WellFormed(g) && ClaimsAt(g, b) && i < |g.shed| && CanPick(g, g.shed[i].lb, pick)
    ensures ClaimsAt(ShedDelivered(g, i, pick), b)
  {
    InputStepClaims(g, g.(shed := RemoveAt(g.shed, i)), g.shed[i].lb, g.shed[i].task, g.now, pick, b);
  }

  lemma NextClaimsAt(g: Cluster, step: Step, b: nat)
    requires WellFormed(g) && Enabled(g, step) && ClaimsOk(g) && b < |g.balancers|
    ensures ClaimsAt(Next(g, step), b)
  {
    assert ClaimsAt(g, b);
    match step
    case Arrive(i, pick) => ArriveClaims(g, i, pick, b);
    case DeliverIntent(i) => IntentStepClaims(g, i, b);
    case DeliverPull(i) =>
      if g.balancers[g.pulls[i].lb].cfg.policy == B.AmphiQueue {
        AmphiPullClaims(g, i, b);
      } else {
        CentralPullClaims(g, i, b);
      }
    case DeliverEvicted(i, pick) => EvictedClaims(g, i, pick, b);
    case DeliverShed(i, pick) => ShedClaims(g, i, pick, b);
    case FireCompletion(i) => CompletionStepClaims(g, i, b);
    case DeliverTask(i) => TaskStepClaims(g, i, b);
    case DeliverRelease(i) => ReleaseStepClaims(g, i, b);
    case FireInitialPull(i) => InitialPullStepClaims(g, i, b);
    case FireTimer(i) => TimerStepClaims(g, i, b);
  }

  /** Claims and queued tasks stay in one-to-one correspondence. */
  lemma NextKeepsClaims(g: Cluster, step: Step)
    requires WellFormed(g) && Enabled(g, step) && ClaimsOk(g)
    ensures ClaimsOk(Next(g, step))
  {
    forall b: nat | b < |Next(g, step).balancers| ensures ClaimsAt(Next(g, step), b) {
      NextClaimsAt(g, step, b);
    }
  }

  /** No step ever reaches the fatal pull abort. */
  lemma NextNeverAborts(g: Cluster, step: Step)
    requires WellFormed(g) && Enabled(g, step) && ClaimsOk(g)
    ensures !Next(g, step).aborted
  {
    if step.DeliverPull? && g.balancers[g.pulls[step.i].lb].cfg.policy == B.AmphiQueue {
      PullFindsTask(g, step.i);
    }
  }

  lemma InitialClaims(g: Cluster)
    requires Initial(g)
    ensures ClaimsOk(g)
  {
    forall b: nat | b < |g.balancers| ensures ClaimsAt(g, b) {
      assert FreshBalancer(g.balancers[b]);
      forall c: Claim ensures Claimed(g, c) == 0 {
        SumZero(g.servers, QueuedIntents(c));
      }
    }
  }
}
