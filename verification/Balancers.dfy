/** The client load balancer: push dispatch, the centralized pull queue, and the AmphiQueue protocol. */
module Balancers {
  import opened Domain
  import opened Sums
  import opened Occupancy

  datatype Policy = Centralized | AmphiQueue | Push

  /** Fixed when the balancer is built. An express balancer preserves the client's metadata; an unbound
      AmphiQueue balancer answers any pull with the head of its queue. */
  datatype BalancerConfig = BalancerConfig(
    policy: Policy, lbId: nat, serverIndices: seq<nat>, preserveMetadata: bool, unbound: bool)

  datatype Balancer = Balancer(
    cfg: BalancerConfig, localInflight: seq<nat>, intentLoad: seq<nat>, queue: seq<Task>, waiting: seq<nat>,
    nextTaskId: nat, occupancy: Accumulator)
  {
    /** Every server the balancer names has a slot in its load tables, and it has at least one server. */
    ghost predicate Valid()
    {
      && |intentLoad| == |localInflight|
      && 0 < |cfg.serverIndices|
      && (forall i :: 0 <= i < |cfg.serverIndices| ==> cfg.serverIndices[i] < |localInflight|)
      && (forall i :: 0 <= i < |waiting| ==> waiting[i] < |localInflight|)
    }
  }

  /** A balancer together with what one handler has sent so far. */
  datatype Effects = Effects(balancer: Balancer, out: Outbox)
  {
    ghost predicate Valid()
    {
      balancer.Valid()
    }
  }

  /** What a handler hands to the output ports and the audit. */
  datatype Outbox = Outbox(tasks: seq<TaskMsg>, intents: seq<IntentMsg>, audit: seq<PullEvent>)

  const NOTHING := Outbox([], [], [])

  datatype PullResult = Fulfilled(effects: Effects) | FatalAbort

  function Start(b: Balancer): Effects
  {
    Effects(b, NOTHING)
  }

  function Ids(q: seq<Task>): (ids: seq<nat>)
    ensures |ids| == |q|
    ensures forall i :: 0 <= i < |q| ==> ids[i] == q[i].taskId
  {
    seq(|q|, i requires 0 <= i < |q| => q[i].taskId)
  }

  /** The first position of `id` in a list of identifiers, or the length of the list. */
  function Position(ids: seq<nat>, id: nat): (i: nat)
    ensures i <= |ids|
    ensures i < |ids| ==> ids[i] == id
    ensures forall j :: 0 <= j < i ==> ids[j] != id
  {
    if ids == [] then 0 else if ids[0] == id then 0 else 1 + Position(ids[1..], id)
  }

  function SampleQueue(b: Balancer, now: Time): Balancer
  {
    b.(occupancy := Sampled(b.occupancy, now, |b.queue|))
  }

  function Enqueued(b: Balancer, task: Task, now: Time): Balancer
  {
    SampleQueue(b.(queue := b.queue + [task.(taskId := b.nextTaskId)], nextTaskId := b.nextTaskId + 1), now)
  }

  function Dequeued(b: Balancer, i: nat, now: Time): Balancer
    requires i < |b.queue|
  {
    SampleQueue(b.(queue := RemoveAt(b.queue, i)), now)
  }

  function Stamped(b: Balancer, server: nat, task: Task, now: Time): Task
  {
    var owned := if b.cfg.preserveMetadata then task else task.(lbId := b.cfg.lbId, originServer := server);
    owned.(dispatchedAt := Some(now))
  }

  function DispatchTo(fx: Effects, server: nat, task: Task, now: Time): (r: Effects)
    requires fx.Valid() && server < |fx.balancer.localInflight|
    ensures r.Valid() && r.balancer.cfg == fx.balancer.cfg
    ensures |r.balancer.localInflight| == |fx.balancer.localInflight|
  {
    var b := fx.balancer;
    fx.(balancer := b.(localInflight := b.localInflight[server := b.localInflight[server] + 1]),
        out := fx.out.(tasks := fx.out.tasks + [TaskMsg(server, Stamped(b, server, task, now))]))
  }

  function DispatchHead(fx: Effects, server: nat, now: Time): (r: Effects)
    requires fx.Valid() && server < |fx.balancer.localInflight| && fx.balancer.queue != []
    ensures r.Valid() && r.balancer.cfg == fx.balancer.cfg
    ensures |r.balancer.localInflight| == |fx.balancer.localInflight|
  {
    DispatchTo(fx.(balancer := Dequeued(fx.balancer, 0, now)), server, fx.balancer.queue[0], now)
  }

  /** Serves the waiting servers in the order they started to wait, until tasks or servers run out. */
  function DispatchWaiting(fx: Effects, now: Time): (r: Effects)
    requires fx.Valid()
    ensures r.Valid() && r.balancer.cfg == fx.balancer.cfg
    ensures |r.balancer.localInflight| == |fx.balancer.localInflight|
    decreases |fx.balancer.waiting|
  {
    var b := fx.balancer;
    if b.waiting == [] || b.queue == [] then fx
    else DispatchWaiting(DispatchHead(fx.(balancer := b.(waiting := b.waiting[1..])), b.waiting[0], now), now)
  }

  function SendIntent(fx: Effects, requestId: nat, pick: nat): (r: Effects)
    requires fx.Valid() && pick < |fx.balancer.cfg.serverIndices|
    ensures r.Valid() && r.balancer.cfg == fx.balancer.cfg
    ensures |r.balancer.localInflight| == |fx.balancer.localInflight|
  {
    var b := fx.balancer;
    var server := b.cfg.serverIndices[pick];
    fx.(balancer := b.(intentLoad := b.intentLoad[server := b.intentLoad[server] + 1]),
        out := fx.out.(intents := fx.out.intents + [IntentMsg(server, PullIntent(b.cfg.lbId, requestId, 0))],
                       audit := fx.out.audit + [IntentSent(b.cfg.lbId, server, requestId)]))
  }

  /** `pick` is the position that the routing policy selects in the balancer's server list. */
  function Input(b: Balancer, task: Task, now: Time, pick: nat): (r: Effects)
    requires b.Valid() && pick < |b.cfg.serverIndices|
    ensures r.Valid() && r.balancer.cfg == b.cfg && |r.balancer.localInflight| == |b.localInflight|
  {
    match b.cfg.policy
    case Centralized => DispatchWaiting(Start(Enqueued(b, task, now)), now)
    case AmphiQueue =>
      var event := TaskEnqueued(b.cfg.lbId, b.nextTaskId, |b.queue|);
      SendIntent(Effects(Enqueued(b, task, now), NOTHING.(audit := [event])), b.nextTaskId, pick)
    case Push => DispatchTo(Start(b), b.cfg.serverIndices[pick], task, now)
  }

  /** The queue position an AmphiQueue pull takes, or the queue length when the pull must abort. */
  function PullIndex(b: Balancer, pull: PullRequest): (i: nat)
    ensures i <= |b.queue|
  {
    if b.cfg.unbound then 0
    else if pull.requestId.None? then |b.queue|
    else Position(Ids(b.queue), pull.requestId.value)
  }

  function Fulfil(b: Balancer, pull: PullRequest, i: nat, now: Time): (r: Effects)
    requires b.Valid() && pull.serverIdx < |b.localInflight| && i < |b.queue|
    ensures r.Valid() && r.balancer.cfg == b.cfg && |r.balancer.localInflight| == |b.localInflight|
  {
    var server := pull.serverIdx;
    var task := b.queue[i];
    var event := PullFulfilled(b.cfg.lbId, server, pull.requestId, task.taskId, |b.queue|, Some(b.queue[0].taskId));
    var taken := Dequeued(b, i, now);
    var lowered := taken.(intentLoad := b.intentLoad[server := SaturatingSub(b.intentLoad[server], 1)]);
    DispatchTo(Effects(lowered, NOTHING.(audit := [event])), server, task, now)
  }

  function Pull(b: Balancer, pull: PullRequest, now: Time): (r: PullResult)
    requires b.Valid() && pull.serverIdx < |b.localInflight|
    ensures r.Fulfilled? ==> r.effects.Valid() && r.effects.balancer.cfg == b.cfg
                             && |r.effects.balancer.localInflight| == |b.localInflight|
  {
    if b.cfg.policy == AmphiQueue then
      var i := PullIndex(b, pull);
      if i == |b.queue| then FatalAbort else Fulfilled(Fulfil(b, pull, i, now))
    else if b.queue == [] then
      Fulfilled(Start(b.(waiting := b.waiting + [pull.serverIdx])))
    else
      Fulfilled(DispatchHead(Start(b), pull.serverIdx, now))
  }

  function Release(b: Balancer, server: nat): (r: Balancer)
    requires b.Valid() && server < |b.localInflight|
    ensures r.Valid()
  {
    b.(localInflight := b.localInflight[server := SaturatingSub(b.localInflight[server], 1)])
  }

  class LoadBalancer {
    const cfg: BalancerConfig
    var localInflight: seq<nat>
    var intentLoad: seq<nat>
    var queue: seq<Task>
    var waiting: seq<nat>
    var nextTaskId: nat
    var occupancy: Accumulator
    // Output ports and audit: what the current handler has sent.
    var out: Outbox

    ghost function State(): Balancer
      reads this
    {
      Balancer(cfg, localInflight, intentLoad, queue, waiting, nextTaskId, occupancy)
    }

    ghost function Sent(): Effects
      reads this
    {
      Effects(State(), out)
    }

    constructor (cfg: BalancerConfig, nServers: nat)
      requires 0 < |cfg.serverIndices|
      requires forall i :: 0 <= i < |cfg.serverIndices| ==> cfg.serverIndices[i] < nServers
      ensures State().Valid() && this.cfg == cfg
      ensures Sent() == Start(Balancer(cfg, seq(nServers, _ => 0), seq(nServers, _ => 0), [], [], 0, EMPTY))
    {
      this.cfg := cfg;
      localInflight, intentLoad := seq(nServers, _ => 0), seq(nServers, _ => 0);
      queue, waiting, nextTaskId, occupancy, out := [], [], 0, EMPTY, NOTHING;
    }

    method RecordQueueOccupancy(now: Time)
      modifies this`occupancy
      ensures State() == SampleQueue(old(State()), now)
    {
      occupancy := Sampled(occupancy, now, |queue|);
    }

    method DispatchToServer(server: nat, task: Task, now: Time)
      requires State().Valid() && server < |localInflight|
      modifies this`localInflight, this`out
      ensures Sent() == DispatchTo(old(Sent()), server, task, now)
    {
      localInflight := localInflight[server := localInflight[server] + 1];
      var stamped := task;
      if !cfg.preserveMetadata {
        stamped := stamped.(lbId := cfg.lbId, originServer := server);
      }
      stamped := stamped.(dispatchedAt := Some(now));
      out := out.(tasks := out.tasks + [TaskMsg(server, stamped)]);
    }

    method DispatchQueueHead(server: nat, now: Time)
      requires State().Valid() && server < |localInflight| && queue != []
      modifies this`queue, this`occupancy, this`localInflight, this`out
      ensures Sent() == DispatchHead(old(Sent()), server, now)
    {
      ghost var before := State();
      var task := queue[0];
      queue := queue[1..];
      assert queue == RemoveAt(before.queue, 0);
      RecordQueueOccupancy(now);
      DispatchToServer(server, task, now);
    }

    method DispatchAllWaiting(now: Time)
      requires State().Valid()
      modifies this`waiting, this`queue, this`occupancy, this`localInflight, this`out
      ensures Sent() == DispatchWaiting(old(Sent()), now)
    {
      while waiting != []
        invariant State().Valid()
        invariant DispatchWaiting(Sent(), now) == DispatchWaiting(old(Sent()), now)
        decreases |waiting|
      {
        ghost var before := waiting;
        var server := waiting[0];
        waiting := waiting[1..];
        if queue == [] {
          waiting := [server] + waiting;
          assert waiting == before;
          break;
        }
        DispatchQueueHead(server, now);
      }
    }

    method RemoveTaskForPull(requestId: nat) returns (task: Option<Task>)
      modifies this`queue
      ensures var i := Position(Ids(old(queue)), requestId);
              if i == |old(queue)| then task == None && queue == old(queue)
              else task == Some(old(queue)[i]) && queue == RemoveAt(old(queue), i)
    {
      var i := 0;
      ghost var ids := Ids(queue);
      while i < |queue|
        invariant 0 <= i <= |queue|
        invariant Position(ids, requestId) == i + Position(ids[i..], requestId)
      {
        if queue[i].taskId == requestId {
          task := Some(queue[i]);
          queue := queue[..i] + queue[i + 1..];
          return;
        }
        assert ids[i..][1..] == ids[i + 1..];
        i := i + 1;
      }
      task := None;
    }

    method SendPullIntent(requestId: nat, pick: nat)
      requires State().Valid() && pick < |cfg.serverIndices|
      modifies this`intentLoad, this`out
      ensures Sent() == SendIntent(old(Sent()), requestId, pick)
    {
      var server := cfg.serverIndices[pick];
      intentLoad := intentLoad[server := intentLoad[server] + 1];
      out := out.(audit := out.audit + [IntentSent(cfg.lbId, server, requestId)]);
      out := out.(intents := out.intents + [IntentMsg(server, PullIntent(cfg.lbId, requestId, 0))]);
    }

    method HandleInput(task: Task, now: Time, pick: nat)
      requires State().Valid() && pick < |cfg.serverIndices|
      modifies this
      ensures Sent() == Input(old(State()), task, now, pick)
    {
      ghost var before := State();
      out := NOTHING;
      if cfg.policy == Centralized {
        var owned := task.(taskId := nextTaskId);
        nextTaskId := nextTaskId + 1;
        queue := queue + [owned];
        RecordQueueOccupancy(now);
        assert Sent() == Start(Enqueued(before, task, now));
        DispatchAllWaiting(now);
        return;
      }
      if cfg.policy == AmphiQueue {
        var requestId := nextTaskId;
        nextTaskId := nextTaskId + 1;
        out := out.(audit := [TaskEnqueued(cfg.lbId, requestId, |queue|)]);
        queue := queue + [task.(taskId := requestId)];
        RecordQueueOccupancy(now);
        assert Sent() == Effects(Enqueued(before, task, now), out);
        SendPullIntent(requestId, pick);
        return;
      }
      DispatchToServer(cfg.serverIndices[pick], task, now);
    }

    /** Answers `false` where the program stops with a fatal pull abort. */
    method HandlePull(pull: PullRequest, now: Time) returns (ok: bool)
      requires State().Valid() && pull.serverIdx < |localInflight|
      modifies this
      ensures ok <==> Pull(old(State()), pull, now).Fulfilled?
      ensures ok ==> Sent() == Pull(old(State()), pull, now).effects
    {
      ghost var before := State();
      out := NOTHING;
      var server := pull.serverIdx;
      if cfg.policy == AmphiQueue {
        if cfg.unbound {
          if queue == [] {
            return false;
          }
          var lenBefore, task := |queue|, queue[0];
          queue := queue[1..];
          assert queue == RemoveAt(before.queue, 0);
          RecordQueueOccupancy(now);
          out := out.(audit := [PullFulfilled(cfg.lbId, server, pull.requestId, task.taskId, lenBefore, Some(task.taskId))]);
          intentLoad := intentLoad[server := SaturatingSub(intentLoad[server], 1)];
          DispatchToServer(server, task, now);
          return true;
        }
        if pull.requestId.None? {
          return false;
        }
        var lenBefore := |queue|;
        var head := if queue == [] then None else Some(queue[0].taskId);
        var found := RemoveTaskForPull(pull.requestId.value);
        if found.None? {
          return false;
        }
        RecordQueueOccupancy(now);
        out := out.(audit := [PullFulfilled(cfg.lbId, server, pull.requestId, found.value.taskId, lenBefore, head)]);
        intentLoad := intentLoad[server := SaturatingSub(intentLoad[server], 1)];
        DispatchToServer(server, found.value, now);
        return true;
      }
      if queue == [] {
        waiting := waiting + [server];
      } else {
        DispatchQueueHead(server, now);
      }
      ok := true;
    }

    method HandleRelease(server: nat)
      requires State().Valid() && server < |localInflight|
      modifies this
      ensures Sent() == Start(Release(old(State()), server))
    {
      out := NOTHING;
      localInflight := localInflight[server := SaturatingSub(localInflight[server], 1)];
    }
  }
}
