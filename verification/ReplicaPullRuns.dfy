/** Callers and target replicas under the AmphiQueue protocol. Calls may be posted at any time, messages arrive in any
    order; no pull ever aborts, no slot is promised twice, and every call that was posted is served. */
module ReplicaPullRuns {
  import opened Domain
  import opened Sums
  import opened Replicas
  import opened ReplicaPulls
  import S = Sidecars

  datatype Machine = Machine(
    sched: Sched, callers: seq<CallerState>, pullers: seq<PullerState>,
    // Messages on their way, and the running services.
    intents: seq<IntentTo>, pulls: seq<PullTo>, calls: seq<ReturnMsg>, running: seq<Service>,
    log: seq<AuditEvent>)

  datatype Step =
    | Post(b: nat, call: OutboundCall, pick: nat)
    | TakeIntent(i: nat, r: nat)
    | TakePull(i: nat)
    | TakeCall(i: nat, r: nat, duration: nat, now: Time)
    | EndService(i: nat, r: nat)

  ghost predicate Enabled(m: Machine, step: Step)
  {
    match step
    case Post(b, call, pick) =>
      && b < |m.callers| && m.callers[b].Valid()
      && (Known(m.callers[b], call.target) ==> pick < |m.callers[b].cfg.indices[call.target]|)
    case TakeIntent(i, r) => i < |m.intents| && r < |m.pullers| && m.pullers[r].cfg.at == m.intents[i].to
    case TakePull(i) => i < |m.pulls| && m.pulls[i].to < |m.callers|
    case TakeCall(i, r, _, _) => i < |m.calls| && r < |m.pullers| && m.pullers[r].cfg.at == m.calls[i].to
    case EndService(i, r) => i < |m.running| && r < |m.pullers| && m.pullers[r].cfg.at == m.running[i].host
  }

  function AfterCaller(m: Machine, b: nat, fx: Posted): Machine
    requires b < |m.callers|
  {
    m.(callers := m.callers[b := fx.caller], intents := m.intents + fx.intents, calls := m.calls + fx.calls,
       log := m.log + fx.audit)
  }

  function AfterPuller(m: Machine, r: nat, fx: Pulled): Machine
    requires r < |m.pullers|
  {
    m.(pullers := m.pullers[r := fx.puller], pulls := m.pulls + fx.pulls, running := m.running + fx.begun,
       log := m.log + fx.audit)
  }

  /** The machine without the message or the service that the step takes. */
  ghost function Less(m: Machine, step: Step): Machine
    requires Enabled(m, step)
  {
    match step
    case Post(_, _, _) => m
    case TakeIntent(i, _) => m.(intents := RemoveAt(m.intents, i))
    case TakePull(i) => m.(pulls := RemoveAt(m.pulls, i))
    case TakeCall(i, _, _, _) => m.(calls := RemoveAt(m.calls, i))
    case EndService(i, _) => m.(running := RemoveAt(m.running, i))
  }

  /** The machine after a step, or nothing where the program aborts. */
  ghost function Next(m: Machine, step: Step): Option<Machine>
    requires Enabled(m, step)
  {
    match step
    case Post(b, call, pick) => Some(AfterCaller(m, b, Outbound(m.callers[b], call, pick)))
    case TakeIntent(i, r) => Some(AfterPuller(Less(m, step), r, ReceiveIntent(m.pullers[r], m.intents[i].intent)))
    case TakePull(i) =>
      (match Fulfil(m.callers[m.pulls[i].to], m.pulls[i].pull)
       case None => None
       case Some(fx) => Some(AfterCaller(Less(m, step), m.pulls[i].to, fx)))
    case TakeCall(i, r, duration, now) =>
      Some(AfterPuller(Less(m, step), r, Arrive(m.pullers[r], m.calls[i].hop, duration, now)))
    case EndService(i, r) => Some(AfterPuller(Less(m, step), r, Finish(m.pullers[r])))
  }

  // Wiring

  ghost predicate CallerWired(m: Machine, b: nat)
    requires b < |m.callers|
  {
    var c := m.callers[b];
    && c.Valid() && c.cfg.rbId == b && c.cfg.sched == m.sched
    && forall t :: t in c.cfg.indices ==> forall i :: 0 <= i < |c.cfg.indices[t]| ==> HasPuller(m, Address(t, c.cfg.indices[t][i]))
  }

  ghost predicate HasPuller(m: Machine, at: Address)
  {
    exists r :: 0 <= r < |m.pullers| && m.pullers[r].cfg.at == at
  }

  ghost predicate PullerWired(m: Machine, r: nat)
    requires r < |m.pullers|
  {
    var s := m.pullers[r];
    && s.cfg.slots > 0 && s.cfg.edf == IntentsByDeadline(m.sched) && s.cfg.senders != {}
    && (forall b :: 0 <= b < |m.callers| ==> b in s.cfg.senders)
    && (forall j :: 0 <= j < |m.pullers| && m.pullers[j].cfg.at == s.cfg.at ==> j == r)
    && Sent(m, s.intents)
  }

  /** Intents come from callers that there are. */
  ghost predicate Sent(m: Machine, intents: seq<PullIntent>)
  {
    forall i :: 0 <= i < |intents| ==> intents[i].senderId < |m.callers|
  }

  ghost predicate MessagesWired(m: Machine)
  {
    && (forall i :: 0 <= i < |m.intents| ==> m.intents[i].intent.senderId < |m.callers| && HasPuller(m, m.intents[i].to))
    && (forall i :: 0 <= i < |m.pulls| ==> m.pulls[i].to < |m.callers| && HasPuller(m, Address(m.pulls[i].pull.target, m.pulls[i].pull.server)))
    && (forall i :: 0 <= i < |m.calls| ==> HasPuller(m, m.calls[i].to))
    && (forall i :: 0 <= i < |m.running| ==> HasPuller(m, m.running[i].host))
  }

  /** Every caller can reach the servers it knows, every server can reach the callers, and addresses are distinct. */
  ghost predicate Wired(m: Machine)
  {
    && (forall b :: 0 <= b < |m.callers| ==> CallerWired(m, b))
    && (forall r :: 0 <= r < |m.pullers| ==> PullerWired(m, r))
    && MessagesWired(m)
  }

  /** The same models, whatever their state. */
  ghost predicate SameModels(m: Machine, n: Machine)
  {
    && n.sched == m.sched && |n.callers| == |m.callers| && |n.pullers| == |m.pullers|
    && forall r :: 0 <= r < |m.pullers| ==> n.pullers[r].cfg == m.pullers[r].cfg
  }

  lemma SamePlaces(m: Machine, n: Machine, at: Address)
    requires SameModels(m, n) && HasPuller(m, at)
    ensures HasPuller(n, at)
  {
    var r :| 0 <= r < |m.pullers| && m.pullers[r].cfg.at == at;
    assert n.pullers[r].cfg.at == at;
  }

  lemma AllSamePlaces(m: Machine, n: Machine)
    requires SameModels(m, n)
    ensures forall at :: HasPuller(m, at) ==> HasPuller(n, at)
  {
    forall at | HasPuller(m, at) ensures HasPuller(n, at) {
      SamePlaces(m, n, at);
    }
  }

  lemma CallerKeepsWired(m: Machine, b: nat, fx: Posted)
    requires Wired(m) && b < |m.callers| && fx.caller.Valid() && fx.caller.cfg == m.callers[b].cfg
    requires forall i :: 0 <= i < |fx.intents| ==> fx.intents[i].intent.senderId == b && HasPuller(m, fx.intents[i].to)
    requires forall i :: 0 <= i < |fx.calls| ==> HasPuller(m, fx.calls[i].to)
    ensures Wired(AfterCaller(m, b, fx)) && SameModels(m, AfterCaller(m, b, fx))
  {
    var n := AfterCaller(m, b, fx);
    AllSamePlaces(m, n);
    forall j | 0 <= j < |n.callers| ensures CallerWired(n, j) {
      assert CallerWired(m, j);
    }
    forall r | 0 <= r < |n.pullers| ensures PullerWired(n, r) {
      assert PullerWired(m, r);
    }
  }

  lemma PullerKeepsWired(m: Machine, r: nat, fx: Pulled)
    requires Wired(m) && r < |m.pullers| && fx.puller.cfg == m.pullers[r].cfg && Sent(m, fx.puller.intents)
    requires forall i :: 0 <= i < |fx.pulls| ==>
               fx.pulls[i].to < |m.callers|
               && Address(fx.pulls[i].pull.target, fx.pulls[i].pull.server) == m.pullers[r].cfg.at
    requires forall i :: 0 <= i < |fx.begun| ==> fx.begun[i].host == m.pullers[r].cfg.at
    ensures Wired(AfterPuller(m, r, fx)) && SameModels(m, AfterPuller(m, r, fx))
  {
    var n := AfterPuller(m, r, fx);
    AllSamePlaces(m, n);
    assert HasPuller(n, m.pullers[r].cfg.at);
    forall j | 0 <= j < |n.callers| ensures CallerWired(n, j) {
      assert CallerWired(m, j);
    }
    forall j | 0 <= j < |n.pullers| ensures PullerWired(n, j) {
      assert PullerWired(m, j) && PullerWired(m, r);
    }
  }

  lemma OutboundValid(c: CallerState, call: OutboundCall, pick: nat)
    requires c.Valid() && (Known(c, call.target) ==> pick < |c.cfg.indices[call.target]|)
    ensures Outbound(c, call, pick).caller.Valid() && Outbound(c, call, pick).caller.cfg == c.cfg
  {
  }

  lemma FulfilValid(c: CallerState, pull: CallPull)
    requires c.Valid() && Fulfil(c, pull).Some?
    ensures Fulfil(c, pull).value.caller.Valid() && Fulfil(c, pull).value.caller.cfg == c.cfg
  {
  }

  lemma EnqueueSent(m: Machine, intents: seq<PullIntent>, intent: PullIntent, edf: bool)
    requires Sent(m, intents) && intent.senderId < |m.callers|
    ensures Sent(m, S.Enqueue(intents, intent, edf))
  {
  }

  lemma LessMessages(m: Machine, step: Step)
    requires MessagesWired(m) && Enabled(m, step)
    ensures MessagesWired(Less(m, step))
  {
    AllSamePlaces(m, Less(m, step));
  }

  lemma LessWired(m: Machine, step: Step)
    requires Wired(m) && Enabled(m, step)
    ensures Wired(Less(m, step)) && SameModels(m, Less(m, step))
  {
    var n := Less(m, step);
    AllSamePlaces(m, n);
    LessMessages(m, step);
    forall b | 0 <= b < |n.callers| ensures CallerWired(n, b) {
      assert CallerWired(m, b);
    }
    forall r | 0 <= r < |n.pullers| ensures PullerWired(n, r) {
      assert PullerWired(m, r);
    }
  }

  /** The wiring lasts. */
  lemma NextWired(m: Machine, step: Step)
    requires Wired(m) && Enabled(m, step) && Next(m, step).Some?
    ensures Wired(Next(m, step).value) && SameModels(m, Next(m, step).value)
  {
    LessWired(m, step);
    match step
    case Post(b, call, pick) => PostWired(m, b, call, pick);
    case TakeIntent(i, r) => IntentWired(m, i, r);
    case TakePull(i) => PullWired(m, i);
    case TakeCall(i, r, duration, now) =>
      assert PullerWired(m, r);
      PullerKeepsWired(Less(m, step), r, Arrive(m.pullers[r], m.calls[i].hop, duration, now));
    case EndService(i, r) =>
      assert PullerWired(m, r);
      PullerKeepsWired(Less(m, step), r, Finish(m.pullers[r]));
  }

  lemma PostWired(m: Machine, b: nat, call: OutboundCall, pick: nat)
    requires Wired(m) && Enabled(m, Post(b, call, pick))
    ensures Wired(Next(m, Post(b, call, pick)).value) && SameModels(m, Next(m, Post(b, call, pick)).value)
  {
    assert CallerWired(m, b);
    OutboundValid(m.callers[b], call, pick);
    CallerKeepsWired(m, b, Outbound(m.callers[b], call, pick));
  }

  lemma IntentWired(m: Machine, i: nat, r: nat)
    requires Wired(m) && Enabled(m, TakeIntent(i, r))
    ensures Wired(Next(m, TakeIntent(i, r)).value) && SameModels(m, Next(m, TakeIntent(i, r)).value)
  {
    LessWired(m, TakeIntent(i, r));
    assert PullerWired(m, r);
    EnqueueSent(m, m.pullers[r].intents, m.intents[i].intent, m.pullers[r].cfg.edf);
    PullerKeepsWired(Less(m, TakeIntent(i, r)), r, ReceiveIntent(m.pullers[r], m.intents[i].intent));
  }

  lemma PullWired(m: Machine, i: nat)
    requires Wired(m) && Enabled(m, TakePull(i)) && Next(m, TakePull(i)).Some?
    ensures Wired(Next(m, TakePull(i)).value) && SameModels(m, Next(m, TakePull(i)).value)
  {
    LessWired(m, TakePull(i));
    assert CallerWired(m, m.pulls[i].to);
    FulfilValid(m.callers[m.pulls[i].to], m.pulls[i].pull);
    CallerKeepsWired(Less(m, TakePull(i)), m.pulls[i].to, Fulfil(m.callers[m.pulls[i].to], m.pulls[i].pull).value);
  }
}
