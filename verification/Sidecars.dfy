/** The shared sidecar: one intent queue for several replicas, drained against its own view of their occupancy. */
module Sidecars {
  import opened Domain
  import Edf

  datatype SidecarConfig = SidecarConfig(
    id: nat, replicas: seq<nat>, maxConcurrency: map<nat, nat>, senders: set<nat>, edf: bool)

  /** A pull that the sidecar sends on behalf of a replica. */
  datatype ReplicaPull = ReplicaPull(sender: nat, server: nat, requestId: nat)

  datatype SidecarState = SidecarState(
    cfg: SidecarConfig, occupancy: map<nat, nat>, pending: map<nat, nat>, intents: seq<PullIntent>)

  datatype Effects = Effects(sidecar: SidecarState, pulls: seq<ReplicaPull>)

  /** What replicas report. */
  datatype CapacityEvent = PullArrived(server: nat) | Completed(server: nat) | Occupancy(server: nat, level: nat)

  function Get(m: map<nat, nat>, k: nat, otherwise: nat): nat
  {
    if k in m then m[k] else otherwise
  }

  function Occupied(s: SidecarState, r: nat): nat { Get(s.occupancy, r, 0) }
  function Pending(s: SidecarState, r: nat): nat { Get(s.pending, r, 0) }
  function Slots(s: SidecarState, r: nat): nat { Get(s.cfg.maxConcurrency, r, 1) }

  predicate HasCapacity(s: SidecarState, r: nat)
  {
    Occupied(s, r) + Pending(s, r) < Slots(s, r)
  }

  /** Answers the first intent with a pull for replica `r`, if the replica has room in the sidecar's view. */
  function DrainIntent(fx: Effects, r: nat): Effects
  {
    var s := fx.sidecar;
    if !HasCapacity(s, r) || s.intents == [] then fx
    else
      var intent := s.intents[0];
      if intent.senderId in s.cfg.senders then
        Effects(s.(intents := s.intents[1..], pending := s.pending[r := Pending(s, r) + 1]),
                fx.pulls + [ReplicaPull(intent.senderId, r, intent.requestId)])
      else fx.(sidecar := s.(intents := s.intents[1..], pending := s.pending[r := Pending(s, r)]))
  }

  function DrainCapacity(fx: Effects, r: nat): Effects
    decreases |fx.sidecar.intents|
  {
    if !HasCapacity(fx.sidecar, r) || fx.sidecar.intents == [] then fx
    else DrainCapacity(DrainIntent(fx, r), r)
  }

  function DrainReplicas(fx: Effects, replicas: seq<nat>): Effects
    decreases |replicas|
  {
    if replicas == [] then fx else DrainReplicas(DrainCapacity(fx, replicas[0]), replicas[1..])
  }

  function IntentDeadlines(intents: seq<PullIntent>): (d: seq<nat>)
    ensures |d| == |intents|
  {
    seq(|intents|, i requires 0 <= i < |intents| => intents[i].deadline)
  }

  function Enqueue(intents: seq<PullIntent>, intent: PullIntent, edf: bool): seq<PullIntent>
  {
    if edf then
      var i := Edf.InsertIndex(IntentDeadlines(intents), intent.deadline);
      intents[..i] + [intent] + intents[i..]
    else intents + [intent]
  }

  function ReceiveIntent(s: SidecarState, intent: PullIntent): Effects
  {
    DrainReplicas(Effects(s.(intents := Enqueue(s.intents, intent, s.cfg.edf)), []), s.cfg.replicas)
  }

  function OnCapacityEvent(s: SidecarState, e: CapacityEvent): Effects
  {
    match e
    case PullArrived(r) =>
      Effects(if r in s.pending then s.(pending := s.pending[r := SaturatingSub(s.pending[r], 1)]) else s, [])
    case Completed(r) => DrainCapacity(Effects(s, []), r)
    case Occupancy(r, level) => DrainCapacity(Effects(s.(occupancy := s.occupancy[r := level]), []), r)
  }

  class AmphiQueueServerSidecar {
    const cfg: SidecarConfig
    var occupancy: map<nat, nat>
    var pending: map<nat, nat>
    var intents: seq<PullIntent>
    // Output ports: the pulls the current handler has sent.
    var pulls: seq<ReplicaPull>

    ghost function State(): SidecarState
      reads this
    {
      SidecarState(cfg, occupancy, pending, intents)
    }

    ghost function Sent(): Effects
      reads this
    {
      Effects(State(), pulls)
    }

    constructor (cfg: SidecarConfig)
      ensures this.cfg == cfg && intents == [] && pulls == []
      ensures forall r :: r in cfg.replicas ==> Occupied(State(), r) == 0 && Pending(State(), r) == 0
    {
      this.cfg := cfg;
      occupancy := map r | r in cfg.replicas :: 0;
      pending := map r | r in cfg.replicas :: 0;
      intents, pulls := [], [];
    }

    method DrainIntentForReplica(r: nat)
      modifies this`pending, this`intents, this`pulls
      ensures Sent() == DrainIntent(old(Sent()), r)
    {
      if Get(occupancy, r, 0) + Get(pending, r, 0) >= Get(cfg.maxConcurrency, r, 1) || intents == [] {
        return;
      }
      var intent := intents[0];
      intents := intents[1..];
      pending := pending[r := Get(pending, r, 0) + 1];
      if intent.senderId in cfg.senders {
        pulls := pulls + [ReplicaPull(intent.senderId, r, intent.requestId)];
      } else {
        pending := pending[r := SaturatingSub(Get(pending, r, 1), 1)];
      }
    }

    method DrainCapacityForReplica(r: nat)
      modifies this`pending, this`intents, this`pulls
      ensures Sent() == DrainCapacity(old(Sent()), r)
    {
      while Get(occupancy, r, 0) + Get(pending, r, 0) < Get(cfg.maxConcurrency, r, 1) && intents != []
        invariant DrainCapacity(Sent(), r) == DrainCapacity(old(Sent()), r)
        decreases |intents|
      {
        var before := |intents|;
        DrainIntentForReplica(r);
        if |intents| == before {
          break;
        }
      }
    }

    method DrainIdleReplicas()
      modifies this`pending, this`intents, this`pulls
      ensures Sent() == DrainReplicas(old(Sent()), cfg.replicas)
    {
      var i := 0;
      assert cfg.replicas[0..] == cfg.replicas;
      while i < |cfg.replicas|
        invariant 0 <= i <= |cfg.replicas|
        invariant DrainReplicas(Sent(), cfg.replicas[i..]) == DrainReplicas(old(Sent()), cfg.replicas)
      {
        assert cfg.replicas[i..][1..] == cfg.replicas[i + 1..];
        DrainCapacityForReplica(cfg.replicas[i]);
        i := i + 1;
      }
    }

    method HandlePullIntent(intent: PullIntent)
      modifies this
      ensures Sent() == ReceiveIntent(old(State()), intent)
    {
      pulls := [];
      if cfg.edf {
        var index := Edf.EdfInsertIndex(IntentDeadlines(intents), intent.deadline);
        intents := intents[..index] + [intent] + intents[index..];
      } else {
        intents := intents + [intent];
      }
      DrainIdleReplicas();
    }

    method HandleCapacityEvent(e: CapacityEvent)
      modifies this
      ensures Sent() == OnCapacityEvent(old(State()), e)
    {
      pulls := [];
      match e {
        case PullArrived(r) =>
          if r in pending {
            pending := pending[r := SaturatingSub(pending[r], 1)];
          }
        case Completed(r) => DrainCapacityForReplica(r);
        case Occupancy(r, level) =>
          occupancy := occupancy[r := level];
          DrainCapacityForReplica(r);
      }
    }

    /** The least occupied replica, the first among equals. */
    method SelectReplica() returns (best: nat)
      requires cfg.replicas != []
      ensures exists k :: 0 <= k < |cfg.replicas| && cfg.replicas[k] == best
                && (forall j :: 0 <= j < |cfg.replicas| ==> Get(occupancy, best, 0) <= Get(occupancy, cfg.replicas[j], 0))
                && (forall j :: 0 <= j < k ==> Get(occupancy, best, 0) < Get(occupancy, cfg.replicas[j], 0))
    {
      best := cfg.replicas[0];
      var bestOccupancy := Get(occupancy, best, 0);
      ghost var at := 0;
      for i := 1 to |cfg.replicas|
        invariant 0 <= at < i && cfg.replicas[at] == best && bestOccupancy == Get(occupancy, best, 0)
        invariant forall j :: 0 <= j < i ==> bestOccupancy <= Get(occupancy, cfg.replicas[j], 0)
        invariant forall j :: 0 <= j < at ==> bestOccupancy < Get(occupancy, cfg.replicas[j], 0)
      {
        var level := Get(occupancy, cfg.replicas[i], 0);
        if level < bestOccupancy {
          best, bestOccupancy, at := cfg.replicas[i], level, i;
        }
      }
    }
  }
}
