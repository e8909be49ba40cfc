/** The AmphiQueue protocol between microservice replicas. A caller's balancer keeps its calls, one queue for each target
    microservice, and announces each with a pull intent; a target replica queues intents and answers one with a pull
    whenever it has a slot; the balancer answers a pull with a call: the announced one, or the head of its queue. */
module ReplicaPulls {
  import opened Domain
  import opened Sums
  import opened CallGraphs
  import opened Replicas
  import D = Downstreams
  import Edf
  import S = Sidecars

  /** `Bound` pulls name the call they are for; the others take the head of the queue. */
  datatype Sched = Bound | Fcfs | EdfCalls | EdfPlus

  predicate CallsByDeadline(sched: Sched) { sched.EdfCalls? || sched.EdfPlus? }
  predicate IntentsByDeadline(sched: Sched) { sched.EdfPlus? }

  /** A pull: where the call is to go, where its intent was sent, and the request that the intent was sent for. */
  datatype CallPull = CallPull(target: string, server: nat, intentServer: nat, requestId: nat)

  datatype IntentTo = IntentTo(to: Address, intent: PullIntent)
  datatype PullTo = PullTo(to: nat, pull: CallPull)

  /** What the audit records. */
  datatype AuditEvent =
    | Announced(sender: nat, target: string, server: nat, requestId: nat, deadline: Time)
    | Received(at: Address, sender: nat, requestId: nat, deadline: Time, lenBefore: nat)
    | Drained(at: Address, sender: nat, requestId: nat, lenBefore: nat, pendingBefore: nat, inFlightBefore: nat, max: nat)
    | Fulfilled(handler: nat, target: string, server: nat, intentId: nat, pulledId: nat, lenBefore: nat, headId: Option<nat>)

  // The caller's balancer

  datatype CallerConfig = CallerConfig(rbId: nat, indices: map<string, seq<nat>>, sched: Sched)

  datatype CallerState = CallerState(cfg: CallerConfig, queues: map<string, seq<OutboundCall>>, load: map<string, seq<nat>>)
  {
    ghost predicate Valid()
    {
      && queues.Keys == load.Keys == cfg.indices.Keys
      && forall t :: t in cfg.indices ==> forall i :: 0 <= i < |cfg.indices[t]| ==> cfg.indices[t][i] < |load[t]|
    }
  }

  datatype Posted = Posted(caller: CallerState, intents: seq<IntentTo>, calls: seq<ReturnMsg>, audit: seq<AuditEvent>)

  /** The balancer knows servers of the call's target. */
  predicate Known(c: CallerState, target: string)
  {
    target in c.cfg.indices && c.cfg.indices[target] != []
  }

  function Bump(load: map<string, seq<nat>>, target: string, server: nat): map<string, seq<nat>>
    requires target in load && server < |load[target]|
  {
    load[target := load[target][server := load[target][server] + 1]]
  }

  function Lower(load: map<string, seq<nat>>, target: string, server: nat): map<string, seq<nat>>
  {
    if target in load && server < |load[target]| then
      var lowered: seq<nat> := load[target][server := SaturatingSub(load[target][server], 1)];
      load[target := lowered]
    else load
  }

  /** `pick` is the position that the routing policy selects. */
  function Outbound(c: CallerState, call: OutboundCall, pick: nat): Posted
    requires c.Valid() && (Known(c, call.target) ==> pick < |c.cfg.indices[call.target]|)
  {
    if !Known(c, call.target) then Posted(c, [], [], [])
    else
      var (t, id, deadline) := (call.target, call.hop.requestId, call.hop.deadline);
      var server := c.cfg.indices[t][pick];
      Posted(c.(queues := c.queues[t := D.Insert(c.queues[t], call, CallsByDeadline(c.cfg.sched))], load := Bump(c.load, t, server)),
             [IntentTo(Address(t, server), PullIntent(c.cfg.rbId, id, deadline))], [],
             [Announced(c.cfg.rbId, t, server, id, deadline)])
  }

  /** The first call for a request. */
  function CallFor(queue: seq<OutboundCall>, id: nat): (r: Option<nat>)
    ensures r.Some? ==> r.value < |queue| && queue[r.value].hop.requestId == id
                        && forall j :: 0 <= j < r.value ==> queue[j].hop.requestId != id
    ensures r.None? ==> forall j :: 0 <= j < |queue| ==> queue[j].hop.requestId != id
  {
    if queue == [] then None
    else if queue[0].hop.requestId == id then Some(0)
    else match CallFor(queue[1..], id) case None => None case Some(i) => Some(i + 1)
  }

  /** The call that a pull takes. */
  function Selected(queue: seq<OutboundCall>, id: nat, sched: Sched): (r: Option<nat>)
    ensures r.Some? ==> r.value < |queue|
  {
    if sched.Bound? then CallFor(queue, id) else if queue == [] then None else Some(0)
  }

  function Head(queue: seq<OutboundCall>): Option<nat>
  {
    if queue == [] then None else Some(queue[0].hop.requestId)
  }

  /** The balancer's answer to a pull, or nothing where the program aborts. */
  function Fulfil(c: CallerState, pull: CallPull): Option<Posted>
  {
    if pull.target !in c.queues then None
    else
      var q := c.queues[pull.target];
      match Selected(q, pull.requestId, c.cfg.sched)
      case None => None
      case Some(i) =>
        Some(Posted(
          c.(queues := c.queues[pull.target := RemoveAt(q, i)], load := Lower(c.load, pull.target, pull.intentServer)), [],
          [ReturnMsg(Address(pull.target, pull.server), q[i].hop.(slotRelease := Some(Release(pull.target, pull.server))))],
          [Fulfilled(c.cfg.rbId, pull.target, pull.server, pull.requestId, q[i].hop.requestId, |q|, Head(q))]))
  }

  class ReplicaBalancer {
    const cfg: CallerConfig
    var queues: map<string, seq<OutboundCall>>
    var load: map<string, seq<nat>>
    // Output ports and audit: what the current handler has sent.
    var intents: seq<IntentTo>
    var calls: seq<ReturnMsg>
    var audit: seq<AuditEvent>

    ghost function State(): CallerState
      reads this
    {
      CallerState(cfg, queues, load)
    }

    ghost function All(): Posted
      reads this
    {
      Posted(State(), intents, calls, audit)
    }

    constructor (cfg: CallerConfig, servers: map<string, nat>)
      requires forall t :: t in cfg.indices ==>
                 t in servers && forall i :: 0 <= i < |cfg.indices[t]| ==> cfg.indices[t][i] < servers[t]
      ensures this.cfg == cfg && State().Valid() && intents == [] && calls == [] && audit == []
      ensures forall t :: t in queues ==> queues[t] == [] && load[t] == seq(servers[t], _ => 0)
    {
      this.cfg := cfg;
      queues := map t | t in cfg.indices :: [];
      load := map t | t in cfg.indices :: seq(servers[t], _ => 0);
      intents, calls, audit := [], [], [];
    }

    method SendPullIntent(target: string, requestId: nat, deadline: Time, pick: nat)
      requires State().Valid() && target in cfg.indices && pick < |cfg.indices[target]|
      modifies this`load, this`intents, this`audit
      ensures var server := cfg.indices[target][pick];
              && load == Bump(old(load), target, server)
              && intents == old(intents) + [IntentTo(Address(target, server), PullIntent(cfg.rbId, requestId, deadline))]
              && audit == old(audit) + [Announced(cfg.rbId, target, server, requestId, deadline)]
    {
      var server := cfg.indices[target][pick];
      load := Bump(load, target, server);
      audit := audit + [Announced(cfg.rbId, target, server, requestId, deadline)];
      intents := intents + [IntentTo(Address(target, server), PullIntent(cfg.rbId, requestId, deadline))];
    }

    method EnqueueCall(queue: seq<OutboundCall>, call: OutboundCall) returns (after: seq<OutboundCall>)
      ensures after == D.Insert(queue, call, CallsByDeadline(cfg.sched))
    {
      if CallsByDeadline(cfg.sched) {
        var index := Edf.EdfInsertIndex(D.CallDeadlines(queue), call.hop.deadline);
        return queue[..index] + [call] + queue[index..];
      }
      after := queue + [call];
    }

    method HandleOutbound(call: OutboundCall, pick: nat)
      requires State().Valid() && (Known(State(), call.target) ==> pick < |cfg.indices[call.target]|)
      modifies this
      ensures All() == Outbound(old(State()), call, pick)
    {
      intents, calls, audit := [], [], [];
      if call.target !in cfg.indices || cfg.indices[call.target] == [] {
        return;
      }
      var queue := EnqueueCall(queues[call.target], call);
      queues := queues[call.target := queue];
      SendPullIntent(call.target, call.hop.requestId, call.hop.deadline, pick);
    }

    method FindCall(queue: seq<OutboundCall>, requestId: nat) returns (place: Option<nat>)
      ensures place == CallFor(queue, requestId)
    {
      for i := 0 to |queue|
        invariant forall j :: 0 <= j < i ==> queue[j].hop.requestId != requestId
      {
        if queue[i].hop.requestId == requestId {
          return Some(i);
        }
      }
      place := None;
    }

    /** Answers `false` where the program aborts. */
    method HandlePull(pull: CallPull) returns (ok: bool)
      modifies this
      ensures ok <==> Fulfil(old(State()), pull).Some?
      ensures ok ==> All() == Fulfil(old(State()), pull).value
    {
      intents, calls, audit := [], [], [];
      if pull.target !in queues {
        return false;
      }
      var queue := queues[pull.target];
      var place := 0;
      if cfg.sched.Bound? {
        var found := FindCall(queue, pull.requestId);
        if found.None? {
          return false;
        }
        place := found.value;
      } else if queue == [] {
        return false;
      }
      var call := queue[place];
      queues := queues[pull.target := RemoveAt(queue, place)];
      load := Lower(load, pull.target, pull.intentServer);
      audit := [Fulfilled(cfg.rbId, pull.target, pull.server, pull.requestId, call.hop.requestId, |queue|, Head(queue))];
      calls := [ReturnMsg(Address(pull.target, pull.server),
                          call.hop.(slotRelease := Some(Release(pull.target, pull.server))))];
      ok := true;
    }
  }

  // The target replica

  datatype PullerConfig = PullerConfig(at: Address, slots: nat, edf: bool, senders: set<nat>, timed: set<Endpoint>)

  datatype PullerState = PullerState(cfg: PullerConfig, inFlight: nat, pending: nat, intents: seq<PullIntent>)

  datatype Pulled = Pulled(puller: PullerState, pulls: seq<PullTo>, begun: seq<Service>, audit: seq<AuditEvent>)

  /** Answers the first intent, if a slot is neither taken nor promised. An intent of an unknown sender is dropped. */
  function Drain(fx: Pulled): Pulled
  {
    var s := fx.puller;
    if s.inFlight + s.pending >= s.cfg.slots || s.intents == [] then fx
    else
      var i := s.intents[0];
      var event := Drained(s.cfg.at, i.senderId, i.requestId, |s.intents|, s.pending, s.inFlight, s.cfg.slots);
      var rest := s.(intents := s.intents[1..]);
      if i.senderId in s.cfg.senders then
        fx.(puller := rest.(pending := s.pending + 1), audit := fx.audit + [event],
            pulls := fx.pulls + [PullTo(i.senderId, CallPull(s.cfg.at.microservice, s.cfg.at.server, s.cfg.at.server, i.requestId))])
      else fx.(puller := rest, audit := fx.audit + [event])
  }

  function ReceiveIntent(s: PullerState, intent: PullIntent): Pulled
  {
    if s.cfg.senders == {} then Pulled(s, [], [], [])
    else
      Drain(Pulled(s.(intents := S.Enqueue(s.intents, intent, s.cfg.edf)), [], [],
                   [Received(s.cfg.at, intent.senderId, intent.requestId, intent.deadline, |s.intents|)]))
  }

  /** A pulled call starts at once, unless its endpoint has no service time. */
  function Arrive(s: PullerState, hop: Hop, duration: nat, now: Time): Pulled
  {
    var pending := if s.cfg.senders != {} then SaturatingSub(s.pending, 1) else s.pending;
    if hop.endpoint in s.cfg.timed then
      Pulled(s.(pending := pending, inFlight := s.inFlight + 1), [],
             [Service(now + duration, s.cfg.at, hop.(duration := duration))], [])
    else Pulled(s.(pending := pending), [], [], [])
  }

  /** The end of the service of a pulled call. */
  function Finish(s: PullerState): Pulled
  {
    var freed := Pulled(s.(inFlight := SaturatingSub(s.inFlight, 1)), [], [], []);
    if s.cfg.senders == {} then freed else Drain(freed)
  }

  class IntentQueue {
    const cfg: PullerConfig
    var inFlight: nat
    var pending: nat
    var intents: seq<PullIntent>
    // Output ports, scheduled events and audit: what the current handler has sent.
    var pulls: seq<PullTo>
    var begun: seq<Service>
    var audit: seq<AuditEvent>

    ghost function State(): PullerState
      reads this
    {
      PullerState(cfg, inFlight, pending, intents)
    }

    ghost function All(): Pulled
      reads this
    {
      Pulled(State(), pulls, begun, audit)
    }

    constructor (cfg: PullerConfig)
      ensures All() == Pulled(PullerState(cfg.(slots := Max(cfg.slots, 1)), 0, 0, []), [], [], [])
    {
      this.cfg := cfg.(slots := Max(cfg.slots, 1));
      inFlight, pending, intents := 0, 0, [];
      pulls, begun, audit := [], [], [];
    }

    method DrainPullIntents()
      modifies this`pending, this`intents, this`pulls, this`audit
      ensures All() == Drain(old(All()))
    {
      if inFlight + pending >= cfg.slots || intents == [] {
        return;
      }
      var intent := intents[0];
      audit := audit + [Drained(cfg.at, intent.senderId, intent.requestId, |intents|, pending, inFlight, cfg.slots)];
      intents := intents[1..];
      pending := pending + 1;
      if intent.senderId in cfg.senders {
        var pull := CallPull(cfg.at.microservice, cfg.at.server, cfg.at.server, intent.requestId);
        pulls := pulls + [PullTo(intent.senderId, pull)];
      } else {
        pending := SaturatingSub(pending, 1);
      }
    }

    method ReceivePullIntent(intent: PullIntent)
      modifies this
      ensures All() == ReceiveIntent(old(State()), intent)
    {
      pulls, begun, audit := [], [], [];
      if cfg.senders == {} {
        return;
      }
      audit := [Received(cfg.at, intent.senderId, intent.requestId, intent.deadline, |intents|)];
      if cfg.edf {
        var index := Edf.EdfInsertIndex(S.IntentDeadlines(intents), intent.deadline);
        intents := intents[..index] + [intent] + intents[index..];
      } else {
        intents := intents + [intent];
      }
      DrainPullIntents();
    }

    method ReceiveCall(hop: Hop, duration: nat, now: Time)
      modifies this
      ensures All() == Arrive(old(State()), hop, duration, now)
    {
      pulls, begun, audit := [], [], [];
      if cfg.senders != {} {
        pending := SaturatingSub(pending, 1);
      }
      inFlight := inFlight + 1;
      if hop.endpoint in cfg.timed {
        begun := [Service(now + duration, cfg.at, hop.(duration := duration))];
      } else {
        inFlight := SaturatingSub(inFlight, 1);
      }
    }

    method CompleteService()
      modifies this
      ensures All() == Finish(old(State()))
    {
      pulls, begun, audit := [], [], [];
      inFlight := SaturatingSub(inFlight, 1);
      if cfg.senders != {} {
        DrainPullIntents();
      }
    }
  }
}
