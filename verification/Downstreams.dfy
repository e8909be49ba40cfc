/** The balancer that several callers share in front of one microservice: a pull queue, first come first served or by
    deadline, waiting servers, and a count of queued calls for each caller. */
module Downstreams {
  import opened Domain
  import opened Sums
  import opened Replicas
  import Edf

  datatype BalancerConfig = BalancerConfig(target: string, servers: seq<nat>, pullQueue: bool, edf: bool)

  /** What the centralized audit records. */
  datatype QueueEvent = CallEnqueued(requestId: nat, deadline: Time) | CallDispatched(requestId: nat, deadline: Time)

  datatype BalancerState = BalancerState(
    cfg: BalancerConfig, localInflight: seq<nat>, queue: seq<OutboundCall>, waiting: seq<nat>, counts: map<Address, nat>)
  {
    ghost predicate Valid()
    {
      && cfg.servers != []
      && (forall i :: 0 <= i < |cfg.servers| ==> cfg.servers[i] < |localInflight|)
      && (forall i :: 0 <= i < |waiting| ==> waiting[i] < |localInflight|)
    }
  }

  datatype Outcome = Outcome(balancer: BalancerState, sent: seq<ReturnMsg>, audit: seq<QueueEvent>)

  function Unsent(b: BalancerState): Outcome
  {
    Outcome(b, [], [])
  }

  function CallerOf(call: OutboundCall): Option<Address>
  {
    if call.hop.caller.None? then None
    else Some(Address(call.hop.caller.value.microservice, call.hop.caller.value.server))
  }

  function Count(counts: map<Address, nat>, a: Address): nat
  {
    if a in counts then counts[a] else 0
  }

  function Incremented(counts: map<Address, nat>, call: OutboundCall): map<Address, nat>
  {
    match CallerOf(call)
    case None => counts
    case Some(a) => counts[a := Count(counts, a) + 1]
  }

  /** A caller whose count reaches zero is forgotten. */
  function Decremented(counts: map<Address, nat>, call: OutboundCall): map<Address, nat>
  {
    match CallerOf(call)
    case None => counts
    case Some(a) =>
      var level := SaturatingSub(Count(counts, a), 1);
      if level == 0 then counts - {a} else counts[a := level]
  }

  function CallDeadlines(queue: seq<OutboundCall>): (d: seq<nat>)
    ensures |d| == |queue| && forall i :: 0 <= i < |queue| ==> d[i] == queue[i].hop.deadline
  {
    seq(|queue|, i requires 0 <= i < |queue| => queue[i].hop.deadline)
  }

  function Insert(queue: seq<OutboundCall>, call: OutboundCall, edf: bool): seq<OutboundCall>
  {
    if edf then
      var i := Edf.InsertIndex(CallDeadlines(queue), call.hop.deadline);
      queue[..i] + [call] + queue[i..]
    else queue + [call]
  }

  /** A pull dispatch carries a slot to release; a push dispatch tells the caller what to release. */
  function Sent(b: BalancerState, server: nat, call: OutboundCall): ReturnMsg
  {
    var hop := call.hop;
    ReturnMsg(Address(b.cfg.target, server),
              if b.cfg.pullQueue then hop.(slotRelease := Some(Release(b.cfg.target, server)))
              else if hop.caller.None? then hop
              else hop.(caller := Some(hop.caller.value.(outboundTarget := b.cfg.target, outboundServer := server))))
  }

  function Dispatch(fx: Outcome, server: nat, call: OutboundCall): (r: Outcome)
    requires fx.balancer.Valid() && server < |fx.balancer.localInflight|
    ensures r.balancer.Valid() && r.balancer.cfg == fx.balancer.cfg
    ensures |r.balancer.localInflight| == |fx.balancer.localInflight|
  {
    var b := fx.balancer;
    Outcome(b.(localInflight := b.localInflight[server := b.localInflight[server] + 1]),
            fx.sent + [Sent(b, server, call)],
            if b.cfg.pullQueue then fx.audit + [CallDispatched(call.hop.requestId, call.hop.deadline)] else fx.audit)
  }

  function DispatchHead(fx: Outcome, server: nat): (r: Outcome)
    requires fx.balancer.Valid() && server < |fx.balancer.localInflight| && fx.balancer.queue != []
    ensures r.balancer.Valid() && r.balancer.cfg == fx.balancer.cfg
    ensures |r.balancer.localInflight| == |fx.balancer.localInflight|
  {
    var b := fx.balancer;
    Dispatch(fx.(balancer := b.(queue := b.queue[1..], counts := Decremented(b.counts, b.queue[0]))), server, b.queue[0])
  }

  function DispatchWaiting(fx: Outcome): (r: Outcome)
    requires fx.balancer.Valid()
    ensures r.balancer.Valid() && r.balancer.cfg == fx.balancer.cfg
    ensures |r.balancer.localInflight| == |fx.balancer.localInflight|
    decreases |fx.balancer.waiting|
  {
    var b := fx.balancer;
    if b.waiting == [] || b.queue == [] then fx
    else DispatchWaiting(DispatchHead(fx.(balancer := b.(waiting := b.waiting[1..])), b.waiting[0]))
  }

  /** `pick` is the position that the routing policy selects. A call for another microservice is refused. */
  function Outbound(b: BalancerState, call: OutboundCall, pick: nat): (r: Outcome)
    requires b.Valid() && pick < |b.cfg.servers|
    ensures r.balancer.Valid() && r.balancer.cfg == b.cfg && |r.balancer.localInflight| == |b.localInflight|
  {
    if call.target != b.cfg.target then Unsent(b)
    else if b.cfg.pullQueue then
      DispatchWaiting(Outcome(b.(queue := Insert(b.queue, call, b.cfg.edf), counts := Incremented(b.counts, call)), [],
                              [CallEnqueued(call.hop.requestId, call.hop.deadline)]))
    else Dispatch(Unsent(b), b.cfg.servers[pick], call)
  }

  function Pull(b: BalancerState, server: nat): (r: Outcome)
    requires b.Valid() && server < |b.localInflight|
    ensures r.balancer.Valid() && r.balancer.cfg == b.cfg && |r.balancer.localInflight| == |b.localInflight|
  {
    if !b.cfg.pullQueue then Unsent(b)
    else if b.queue == [] then Unsent(b.(waiting := b.waiting + [server]))
    else DispatchHead(Unsent(b), server)
  }

  class DownstreamBalancer {
    const cfg: BalancerConfig
    var localInflight: seq<nat>
    var queue: seq<OutboundCall>
    var waiting: seq<nat>
    var counts: map<Address, nat>
    // Output ports and audit: what the current handler has sent.
    var sent: seq<ReturnMsg>
    var audit: seq<QueueEvent>

    ghost function State(): BalancerState
      reads this
    {
      BalancerState(cfg, localInflight, queue, waiting, counts)
    }

    ghost function All(): Outcome
      reads this
    {
      Outcome(State(), sent, audit)
    }

    constructor (cfg: BalancerConfig, nServers: nat)
      requires cfg.servers != [] && forall i :: 0 <= i < |cfg.servers| ==> cfg.servers[i] < nServers
      ensures All() == Unsent(BalancerState(cfg, seq(nServers, _ => 0), [], [], map[])) && State().Valid()
    {
      this.cfg := cfg;
      localInflight, queue, waiting, counts := seq(nServers, _ => 0), [], [], map[];
      sent, audit := [], [];
    }

    method DispatchToServer(server: nat, call: OutboundCall)
      requires State().Valid() && server < |localInflight|
      modifies this`localInflight, this`sent, this`audit
      ensures All() == Dispatch(old(All()), server, call)
    {
      localInflight := localInflight[server := localInflight[server] + 1];
      var hop := call.hop;
      if cfg.pullQueue {
        audit := audit + [CallDispatched(hop.requestId, hop.deadline)];
        hop := hop.(slotRelease := Some(Release(cfg.target, server)));
      } else if hop.caller.Some? {
        hop := hop.(caller := Some(hop.caller.value.(outboundTarget := cfg.target, outboundServer := server)));
      }
      sent := sent + [ReturnMsg(Address(cfg.target, server), hop)];
    }

    method CountUp(call: OutboundCall)
      modifies this`counts
      ensures counts == Incremented(old(counts), call)
    {
      if call.hop.caller.None? {
        return;
      }
      var key := Address(call.hop.caller.value.microservice, call.hop.caller.value.server);
      counts := counts[key := Count(counts, key) + 1];
    }

    method CountDown(call: OutboundCall)
      modifies this`counts
      ensures counts == Decremented(old(counts), call)
    {
      if call.hop.caller.None? {
        return;
      }
      var key := Address(call.hop.caller.value.microservice, call.hop.caller.value.server);
      var level := SaturatingSub(Count(counts, key), 1);
      if level == 0 {
        counts := counts - {key};
      } else {
        counts := counts[key := level];
      }
    }

    method DispatchAllWaiting()
      requires State().Valid()
      modifies this
      ensures All() == DispatchWaiting(old(All()))
    {
      while waiting != []
        invariant State().Valid()
        invariant DispatchWaiting(All()) == DispatchWaiting(old(All()))
        decreases |waiting|
      {
        ghost var before := waiting;
        var server := waiting[0];
        waiting := waiting[1..];
        if queue == [] {
          waiting := [server] + waiting;
          assert waiting == before;
          break;
        }
        var call := queue[0];
        queue := queue[1..];
        CountDown(call);
        DispatchToServer(server, call);
      }
    }

    method HandleOutbound(call: OutboundCall, pick: nat)
      requires State().Valid() && pick < |cfg.servers|
      modifies this
      ensures All() == Outbound(old(State()), call, pick)
    {
      sent, audit := [], [];
      if call.target != cfg.target {
        return;
      }
      if !cfg.pullQueue {
        DispatchToServer(cfg.servers[pick], call);
        return;
      }
      audit := [CallEnqueued(call.hop.requestId, call.hop.deadline)];
      CountUp(call);
      if cfg.edf {
        var index := Edf.EdfInsertIndex(CallDeadlines(queue), call.hop.deadline);
        queue := queue[..index] + [call] + queue[index..];
      } else {
        queue := queue + [call];
      }
      DispatchAllWaiting();
    }

    method HandlePull(server: nat)
      requires State().Valid() && server < |localInflight|
      modifies this
      ensures All() == Pull(old(State()), server)
    {
      sent, audit := [], [];
      if !cfg.pullQueue {
        return;
      }
      if queue == [] {
        waiting := waiting + [server];
        return;
      }
      var call := queue[0];
      queue := queue[1..];
      CountDown(call);
      DispatchToServer(server, call);
    }
  }

  // What the handlers keep

  function FromCaller(a: Address): OutboundCall -> int
  {
    (c: OutboundCall) => if CallerOf(c) == Some(a) then 1 else 0
  }

  /** The counts are exact, and only callers with queued calls have one. */
  ghost predicate CountsExact(b: BalancerState)
  {
    && (forall a: Address :: Count(b.counts, a) == Sum(b.queue, FromCaller(a)))
    && (forall a :: a in b.counts ==> b.counts[a] > 0)
  }

  /** Deadlines ascend through the queue of an EDF balancer. */
  ghost predicate Ascending(b: BalancerState)
  {
    b.cfg.edf ==> forall i, j :: 0 <= i < j < |b.queue| ==> b.queue[i].hop.deadline <= b.queue[j].hop.deadline
  }

  ghost predicate Good(b: BalancerState)
  {
    CountsExact(b) && Ascending(b) && (b.queue == [] || b.waiting == [])
  }

  lemma InsertCounted(b: BalancerState, call: OutboundCall)
    requires CountsExact(b)
    ensures CountsExact(b.(queue := Insert(b.queue, call, b.cfg.edf), counts := Incremented(b.counts, call)))
  {
    forall a: Address
      ensures Count(Incremented(b.counts, call), a) == Sum(Insert(b.queue, call, b.cfg.edf), FromCaller(a))
    {
      assert Count(b.counts, a) == Sum(b.queue, FromCaller(a));
      if b.cfg.edf {
        SumInsert(b.queue, call, Edf.InsertIndex(CallDeadlines(b.queue), call.hop.deadline), FromCaller(a));
      } else {
        SumAppend(b.queue, call, FromCaller(a));
      }
    }
  }

  lemma InsertAscending(b: BalancerState, call: OutboundCall)
    requires Ascending(b)
    ensures Ascending(b.(queue := Insert(b.queue, call, b.cfg.edf)))
  {
    if b.cfg.edf {
      var i := Edf.InsertIndex(CallDeadlines(b.queue), call.hop.deadline);
      var q := Insert(b.queue, call, true);
      forall x, y | 0 <= x < y < |q| ensures q[x].hop.deadline <= q[y].hop.deadline {
        if x < i {
          assert CallDeadlines(b.queue)[x] <= call.hop.deadline;
        }
        if y > i {
          assert b.queue[i].hop.deadline > call.hop.deadline;
          assert b.queue[i].hop.deadline <= b.queue[y - 1].hop.deadline;
        }
      }
    }
  }

  lemma TakeHead(b: BalancerState)
    requires CountsExact(b) && Ascending(b) && b.queue != []
    ensures CountsExact(b.(queue := b.queue[1..], counts := Decremented(b.counts, b.queue[0])))
    ensures Ascending(b.(queue := b.queue[1..]))
  {
    assert RemoveAt(b.queue, 0) == b.queue[1..];
    forall a: Address ensures Count(Decremented(b.counts, b.queue[0]), a) == Sum(b.queue[1..], FromCaller(a)) {
      assert Count(b.counts, a) == Sum(b.queue, FromCaller(a));
      SumRemove(b.queue, 0, FromCaller(a));
      SumNonNegative(b.queue[1..], FromCaller(a));
    }
  }

  lemma {:induction false} WaitingGood(fx: Outcome)
    requires fx.balancer.Valid() && CountsExact(fx.balancer) && Ascending(fx.balancer)
    ensures Good(DispatchWaiting(fx).balancer)
    decreases |fx.balancer.waiting|
  {
    var b := fx.balancer;
    if b.waiting != [] && b.queue != [] {
      TakeHead(b);
      var next := DispatchHead(fx.(balancer := b.(waiting := b.waiting[1..])), b.waiting[0]);
      assert CountsExact(next.balancer) by {
        var taken := b.(queue := b.queue[1..], counts := Decremented(b.counts, b.queue[0]));
        assert forall a: Address :: Count(taken.counts, a) == Sum(taken.queue, FromCaller(a));
      }
      WaitingGood(next);
    }
  }

  /** Every handler keeps the per-caller counts exact and the queue in order, and leaves no server waiting beside a
      queued call. */
  lemma OutboundGood(b: BalancerState, call: OutboundCall, pick: nat)
    requires b.Valid() && pick < |b.cfg.servers| && Good(b)
    ensures Good(Outbound(b, call, pick).balancer)
  {
    if call.target == b.cfg.target && b.cfg.pullQueue {
      InsertCounted(b, call);
      InsertAscending(b, call);
      WaitingGood(Outcome(b.(queue := Insert(b.queue, call, b.cfg.edf), counts := Incremented(b.counts, call)), [],
                          [CallEnqueued(call.hop.requestId, call.hop.deadline)]));
    }
  }

  lemma PullGood(b: BalancerState, server: nat)
    requires b.Valid() && server < |b.localInflight| && Good(b)
    ensures Good(Pull(b, server).balancer)
    ensures b.cfg.pullQueue && b.cfg.edf && b.queue != [] ==>
              && |Pull(b, server).sent| == 1
              && forall i :: 0 <= i < |b.queue| ==> Pull(b, server).sent[0].hop.deadline <= b.queue[i].hop.deadline
  {
    if b.cfg.pullQueue && b.queue != [] {
      TakeHead(b);
      var r := Pull(b, server).balancer;
      var taken := b.(queue := b.queue[1..], counts := Decremented(b.counts, b.queue[0]));
      assert forall a: Address :: Count(taken.counts, a) == Sum(taken.queue, FromCaller(a));
    }
  }
}
