/** What every run of the AmphiQueue protocol between replicas keeps: each queued call has its claim, an intent or a
    pull on its way; each slot is promised once; intents wait only while their server is full. */
module ReplicaPullSafety {
  import opened Domain
  import opened Sums
  import opened Replicas
  import opened ReplicaPulls
  import opened ReplicaPullRuns
  import D = Downstreams
  import Edf
  import S = Sidecars

  // Claims

  /** A weight for a claim, by its sender, the address that its intent was sent to, and its request. */
  type Weight = (nat, Address, nat) -> int

  function OfIntent(f: Weight): IntentTo -> int { (x: IntentTo) => f(x.intent.senderId, x.to, x.intent.requestId) }
  function OfWaiting(f: Weight, at: Address): PullIntent -> int { (x: PullIntent) => f(x.senderId, at, x.requestId) }
  function OfPuller(f: Weight): PullerState -> int { (s: PullerState) => Sum(s.intents, OfWaiting(f, s.cfg.at)) }
  function OfPull(f: Weight): PullTo -> int
  {
    (x: PullTo) => f(x.to, Address(x.pull.target, x.pull.intentServer), x.pull.requestId)
  }

  /** Intents on their way, intents that wait at a server, and pulls on their way back. */
  ghost function Claims(m: Machine, f: Weight): int
  {
    Sum(m.intents, OfIntent(f)) + Sum(m.pullers, OfPuller(f)) + Sum(m.pulls, OfPull(f))
  }

  ghost function HeldBy(fx: Pulled, f: Weight): int
  {
    Sum(fx.puller.intents, OfWaiting(f, fx.puller.cfg.at)) + Sum(fx.pulls, OfPull(f))
  }

  lemma DrainKeepsClaims(fx: Pulled, f: Weight)
    requires forall i :: 0 <= i < |fx.puller.intents| ==> fx.puller.intents[i].senderId in fx.puller.cfg.senders
    ensures HeldBy(Drain(fx), f) == HeldBy(fx, f) && Drain(fx).puller.cfg == fx.puller.cfg
  {
    var s := fx.puller;
    if s.inFlight + s.pending < s.cfg.slots && s.intents != [] {
      var (i, at) := (s.intents[0], s.cfg.at);
      SumRemove(s.intents, 0, OfWaiting(f, at));
      assert RemoveAt(s.intents, 0) == s.intents[1..];
      SumAppend(fx.pulls, PullTo(i.senderId, CallPull(at.microservice, at.server, at.server, i.requestId)), OfPull(f));
    }
  }

  lemma EnqueueClaims(intents: seq<PullIntent>, intent: PullIntent, edf: bool, f: PullIntent -> int)
    ensures Sum(S.Enqueue(intents, intent, edf), f) == Sum(intents, f) + f(intent)
  {
    if edf {
      SumInsert(intents, intent, Edf.InsertIndex(S.IntentDeadlines(intents), intent.deadline), f);
    } else {
      SumAppend(intents, intent, f);
    }
  }

  lemma PullerClaims(m: Machine, r: nat, fx: Pulled, f: Weight)
    requires r < |m.pullers| && fx.puller.cfg == m.pullers[r].cfg
    ensures Claims(AfterPuller(m, r, fx), f) == Claims(m, f) - OfPuller(f)(m.pullers[r]) + HeldBy(fx, f)
  {
    SumUpdate(m.pullers, r, fx.puller, OfPuller(f));
    SumConcat(m.pulls, fx.pulls, OfPull(f));
  }

  lemma CallerClaims(m: Machine, b: nat, fx: Posted, f: Weight)
    requires b < |m.callers|
    ensures Claims(AfterCaller(m, b, fx), f) == Claims(m, f) + Sum(fx.intents, OfIntent(f))
  {
    SumConcat(m.intents, fx.intents, OfIntent(f));
  }

  lemma KnownSenders(m: Machine, r: nat)
    requires Wired(m) && r < |m.pullers|
    ensures m.pullers[r].cfg.senders != {} && m.pullers[r].cfg.edf == IntentsByDeadline(m.sched)
    ensures forall x: PullIntent :: x in m.pullers[r].intents ==> x.senderId in m.pullers[r].cfg.senders
    ensures forall b :: 0 <= b < |m.callers| ==> b in m.pullers[r].cfg.senders
  {
    assert PullerWired(m, r);
  }

  lemma EnqueueKnown(intents: seq<PullIntent>, intent: PullIntent, edf: bool, senders: set<nat>)
    requires intent.senderId in senders && forall x: PullIntent :: x in intents ==> x.senderId in senders
    ensures var q := S.Enqueue(intents, intent, edf); forall i :: 0 <= i < |q| ==> q[i].senderId in senders
  {
  }

  /** The claim that a step makes or settles. */
  ghost function Change(m: Machine, step: Step, f: Weight): int
    requires Enabled(m, step)
  {
    match step
    case Post(b, call, pick) =>
      if Known(m.callers[b], call.target)
      then f(m.callers[b].cfg.rbId, Address(call.target, m.callers[b].cfg.indices[call.target][pick]), call.hop.requestId) else 0
    case TakePull(i) => -OfPull(f)(m.pulls[i])
    case _ => 0
  }

  lemma ReceiveKeepsClaims(s: PullerState, intent: PullIntent, f: Weight)
    requires s.cfg.senders != {} && intent.senderId in s.cfg.senders
    requires forall x: PullIntent :: x in s.intents ==> x.senderId in s.cfg.senders
    ensures HeldBy(ReceiveIntent(s, intent), f) == OfPuller(f)(s) + f(intent.senderId, s.cfg.at, intent.requestId)
    ensures ReceiveIntent(s, intent).puller.cfg == s.cfg
  {
    EnqueueClaims(s.intents, intent, s.cfg.edf, OfWaiting(f, s.cfg.at));
    EnqueueKnown(s.intents, intent, s.cfg.edf, s.cfg.senders);
    var queued := s.(intents := S.Enqueue(s.intents, intent, s.cfg.edf));
    DrainKeepsClaims(Pulled(queued, [], [], [Received(s.cfg.at, intent.senderId, intent.requestId, intent.deadline, |s.intents|)]), f);
  }

  lemma FinishKeepsClaims(s: PullerState, f: Weight)
    requires forall x: PullIntent :: x in s.intents ==> x.senderId in s.cfg.senders
    ensures HeldBy(Finish(s), f) == OfPuller(f)(s) && Finish(s).puller.cfg == s.cfg
  {
    DrainKeepsClaims(Pulled(s.(inFlight := SaturatingSub(s.inFlight, 1)), [], [], []), f);
  }

  lemma PostClaims(m: Machine, b: nat, call: OutboundCall, pick: nat, f: Weight)
    requires Enabled(m, Post(b, call, pick))
    ensures Claims(Next(m, Post(b, call, pick)).value, f) == Claims(m, f) + Change(m, Post(b, call, pick), f)
  {
    var fx := Outbound(m.callers[b], call, pick);
    CallerClaims(m, b, fx, f);
    if Known(m.callers[b], call.target) {
      SumOne(fx.intents[0], OfIntent(f));
    }
  }

  lemma IntentClaims(m: Machine, i: nat, r: nat, f: Weight)
    requires Wired(m) && Enabled(m, TakeIntent(i, r))
    ensures Claims(Next(m, TakeIntent(i, r)).value, f) == Claims(m, f)
  {
    KnownSenders(m, r);
    SumRemove(m.intents, i, OfIntent(f));
    ReceiveKeepsClaims(m.pullers[r], m.intents[i].intent, f);
    PullerClaims(Less(m, TakeIntent(i, r)), r, ReceiveIntent(m.pullers[r], m.intents[i].intent), f);
  }

  /** A call makes one claim, a pull that is answered settles one, and no other step changes any. */
  lemma NextClaims(m: Machine, step: Step, f: Weight)
    requires Wired(m) && Enabled(m, step) && Next(m, step).Some?
    ensures Claims(Next(m, step).value, f) == Claims(m, f) + Change(m, step, f)
  {
    match step
    case Post(b, call, pick) => PostClaims(m, b, call, pick, f);
    case TakeIntent(i, r) => IntentClaims(m, i, r, f);
    case TakePull(i) =>
      SumRemove(m.pulls, i, OfPull(f));
      CallerClaims(Less(m, step), m.pulls[i].to, Fulfil(m.callers[m.pulls[i].to], m.pulls[i].pull).value, f);
    case TakeCall(i, r, duration, now) =>
      PullerClaims(Less(m, step), r, Arrive(m.pullers[r], m.calls[i].hop, duration, now), f);
    case EndService(i, r) =>
      KnownSenders(m, r);
      FinishKeepsClaims(m.pullers[r], f);
      PullerClaims(Less(m, step), r, Finish(m.pullers[r]), f);
  }

  // Queued calls and their claims

  type ByRequest = nat -> int

  function OfCall(h: ByRequest): OutboundCall -> int { (c: OutboundCall) => h(c.hop.requestId) }

  /** The claims of balancer `b` on microservice `t`. */
  function On(b: nat, t: string, h: ByRequest): Weight
  {
    (x: nat, a: Address, id: nat) => if x == b && a.microservice == t then h(id) else 0
  }

  function CallsTo(c: CallerState, t: string): seq<OutboundCall>
  {
    if t in c.queues then c.queues[t] else []
  }

  function QueueOf(m: Machine, b: nat, t: string): seq<OutboundCall>
  {
    if b < |m.callers| then CallsTo(m.callers[b], t) else []
  }

  /** A weight that tells requests apart, or one that only counts. */
  ghost predicate Counts(h: ByRequest)
  {
    forall x, y :: h(x) == h(y)
  }

  ghost predicate Balanced(m: Machine, b: nat, t: string, h: ByRequest)
  {
    Sum(QueueOf(m, b, t), OfCall(h)) == Claims(m, On(b, t, h))
  }

  lemma InsertCounted(q: seq<OutboundCall>, call: OutboundCall, edf: bool, f: OutboundCall -> int)
    ensures Sum(D.Insert(q, call, edf), f) == Sum(q, f) + f(call)
  {
    if edf {
      SumInsert(q, call, Edf.InsertIndex(D.CallDeadlines(q), call.hop.deadline), f);
    } else {
      SumAppend(q, call, f);
    }
  }

  lemma OutboundCounted(c: CallerState, call: OutboundCall, pick: nat, t: string, h: ByRequest)
    requires c.Valid() && (Known(c, call.target) ==> pick < |c.cfg.indices[call.target]|)
    ensures Sum(CallsTo(Outbound(c, call, pick).caller, t), OfCall(h))
         == Sum(CallsTo(c, t), OfCall(h)) + if Known(c, call.target) && call.target == t then h(call.hop.requestId) else 0
  {
    if Known(c, call.target) && call.target == t {
      InsertCounted(CallsTo(c, t), call, CallsByDeadline(c.cfg.sched), OfCall(h));
    }
  }

  lemma FulfilCounted(c: CallerState, pull: CallPull, t: string, h: ByRequest)
    requires Fulfil(c, pull).Some? && (c.cfg.sched.Bound? || Counts(h))
    ensures Sum(CallsTo(Fulfil(c, pull).value.caller, t), OfCall(h))
         == Sum(CallsTo(c, t), OfCall(h)) - if pull.target == t then h(pull.requestId) else 0
  {
    if pull.target == t {
      var q := CallsTo(c, t);
      var at := Selected(q, pull.requestId, c.cfg.sched).value;
      SumRemove(q, at, OfCall(h));
      assert h(q[at].hop.requestId) == h(pull.requestId);
    }
  }

  lemma PostBalanced(m: Machine, x: nat, call: OutboundCall, pick: nat, b: nat, t: string, h: ByRequest)
    requires Wired(m) && Enabled(m, Post(x, call, pick)) && Balanced(m, b, t, h)
    ensures Balanced(Next(m, Post(x, call, pick)).value, b, t, h)
  {
    PostClaims(m, x, call, pick, On(b, t, h));
    assert CallerWired(m, x);
    OutboundCounted(m.callers[x], call, pick, t, h);
  }

  lemma PullBalanced(m: Machine, i: nat, b: nat, t: string, h: ByRequest)
    requires Wired(m) && Enabled(m, TakePull(i)) && Next(m, TakePull(i)).Some?
    requires (m.sched.Bound? || Counts(h)) && Balanced(m, b, t, h)
    ensures Balanced(Next(m, TakePull(i)).value, b, t, h)
  {
    NextClaims(m, TakePull(i), On(b, t, h));
    assert CallerWired(m, m.pulls[i].to);
    FulfilCounted(m.callers[m.pulls[i].to], m.pulls[i].pull, t, h);
  }

  /** Claims and calls stay equal: each request's own when pulls are bound, their numbers when they are not. */
  lemma NextBalanced(m: Machine, step: Step, b: nat, t: string, h: ByRequest)
    requires Wired(m) && Enabled(m, step) && Next(m, step).Some?
    requires m.sched.Bound? || Counts(h)
    requires Balanced(m, b, t, h)
    ensures Balanced(Next(m, step).value, b, t, h)
  {
    match step
    case Post(x, call, pick) => PostBalanced(m, x, call, pick, b, t, h);
    case TakePull(i) => PullBalanced(m, i, b, t, h);
    case _ => NextClaims(m, step, On(b, t, h));
  }

  /** What a step does to one balancer. */
  lemma CallersNext(m: Machine, step: Step, b: nat)
    requires Enabled(m, step) && Next(m, step).Some?
    ensures var n := Next(m, step).value;
            && n.sched == m.sched && |n.callers| == |m.callers|
            && (b < |m.callers| ==>
                  n.callers[b] == match step
                                  case Post(x, call, pick) =>
                                    if x == b then Outbound(m.callers[b], call, pick).caller else m.callers[b]
                                  case TakePull(i) =>
                                    if m.pulls[i].to == b then Fulfil(m.callers[b], m.pulls[i].pull).value.caller
                                    else m.callers[b]
                                  case _ => m.callers[b])
  {
  }

  function This(id: nat): ByRequest { (x: nat) => if x == id then 1 else 0 }
  function Each(): ByRequest { (_: nat) => 1 }

  ghost predicate AllBalanced(m: Machine)
  {
    forall b: nat, t: string, h: ByRequest :: m.sched.Bound? || Counts(h) ==> Balanced(m, b, t, h)
  }

  lemma NonNegativeClaims(f: Weight)
    requires forall x, a, id :: f(x, a, id) >= 0
    ensures NonNegative(OfIntent(f)) && NonNegative(OfPull(f)) && NonNegative(OfPuller(f))
  {
    forall s: PullerState ensures OfPuller(f)(s) >= 0 {
      SumNonNegative(s.intents, OfWaiting(f, s.cfg.at));
    }
  }

  lemma PullClaims(m: Machine, i: nat, f: Weight)
    requires i < |m.pulls| && forall x, a, id :: f(x, a, id) >= 0
    ensures Claims(m, f) >= OfPull(f)(m.pulls[i])
  {
    NonNegativeClaims(f);
    SumNonNegative(m.intents, OfIntent(f));
    SumNonNegative(m.pullers, OfPuller(f));
    SumAtLeast(m.pulls, i, OfPull(f));
  }

  /** No pull aborts: the bound call is there, or the queue is not empty. */
  lemma NeverAborts(m: Machine, step: Step)
    requires AllBalanced(m) && Wired(m) && Enabled(m, step)
    ensures Next(m, step).Some?
  {
    if step.TakePull? {
      var (b, pull) := (m.pulls[step.i].to, m.pulls[step.i].pull);
      assert CallerWired(m, b);
      var h := if m.sched.Bound? then This(pull.requestId) else Each();
      assert Balanced(m, b, pull.target, h);
      PullClaims(m, step.i, On(b, pull.target, h));
      var k := SumPositive(QueueOf(m, b, pull.target), OfCall(h));
    }
  }

  // The announced load

  function Via(b: nat, at: Address): Weight
  {
    (x: nat, a: Address, _: nat) => if x == b && a == at then 1 else 0
  }

  /** The load that balancer `b` sees at a server is the number of its claims there. */
  ghost predicate LoadExact(m: Machine, b: nat, t: string, server: nat)
    requires b < |m.callers|
  {
    LoadAt(m.callers[b], t, server) == Claims(m, Via(b, Address(t, server)))
  }

  function LoadAt(c: CallerState, t: string, server: nat): int
  {
    if t in c.load && server < |c.load[t]| then c.load[t][server] else 0
  }

  lemma OutboundLoad(c: CallerState, call: OutboundCall, pick: nat, t: string, server: nat)
    requires c.Valid() && (Known(c, call.target) ==> pick < |c.cfg.indices[call.target]|)
    ensures LoadAt(Outbound(c, call, pick).caller, t, server)
         == LoadAt(c, t, server)
            + if Known(c, call.target) && call.target == t && c.cfg.indices[t][pick] == server then 1 else 0
  {
  }

  lemma FulfilLoad(c: CallerState, pull: CallPull, t: string, server: nat)
    requires Fulfil(c, pull).Some?
    requires pull.target == t && pull.intentServer == server ==> LoadAt(c, t, server) > 0
    ensures LoadAt(Fulfil(c, pull).value.caller, t, server)
         == LoadAt(c, t, server) - if pull.target == t && pull.intentServer == server then 1 else 0
  {
  }

  lemma PostLoadExact(m: Machine, x: nat, call: OutboundCall, pick: nat, b: nat, t: string, server: nat)
    requires Wired(m) && Enabled(m, Post(x, call, pick)) && b < |m.callers| && LoadExact(m, b, t, server)
    ensures LoadExact(Next(m, Post(x, call, pick)).value, b, t, server)
  {
    NextClaims(m, Post(x, call, pick), Via(b, Address(t, server)));
    assert CallerWired(m, x);
    if x == b {
      OutboundLoad(m.callers[b], call, pick, t, server);
    }
  }

  lemma PullLoadExact(m: Machine, i: nat, b: nat, t: string, server: nat)
    requires Wired(m) && Enabled(m, TakePull(i)) && Next(m, TakePull(i)).Some? && b < |m.callers| && LoadExact(m, b, t, server)
    ensures LoadExact(Next(m, TakePull(i)).value, b, t, server)
  {
    NextClaims(m, TakePull(i), Via(b, Address(t, server)));
    PullClaims(m, i, Via(b, Address(t, server)));
    if m.pulls[i].to == b {
      FulfilLoad(m.callers[b], m.pulls[i].pull, t, server);
    }
  }

  /** No count of announced load is ever too low to be lowered. */
  lemma NextLoadExact(m: Machine, step: Step, b: nat, t: string, server: nat)
    requires Wired(m) && Enabled(m, step) && Next(m, step).Some? && b < |m.callers| && LoadExact(m, b, t, server)
    ensures b < |Next(m, step).value.callers| && LoadExact(Next(m, step).value, b, t, server)
  {
    CallersNext(m, step, b);
    match step
    case Post(x, call, pick) => PostLoadExact(m, x, call, pick, b, t, server);
    case TakePull(i) => PullLoadExact(m, i, b, t, server);
    case _ => NextClaims(m, step, Via(b, Address(t, server)));
  }

  // Slots

  function AtHost(a: Address): Service -> int { (s: Service) => if s.host == a then 1 else 0 }
  function For(a: Address): ReturnMsg -> int { (c: ReturnMsg) => if c.to == a then 1 else 0 }
  function PullsFor(a: Address): PullTo -> int
  {
    (x: PullTo) => if Address(x.pull.target, x.pull.server) == a then 1 else 0
  }

  /** The running services and the promised slots of a replica are what they count, and fit its slots. */
  ghost predicate SlotsExact(m: Machine, r: nat)
    requires r < |m.pullers|
  {
    var (s, a) := (m.pullers[r], m.pullers[r].cfg.at);
    && s.inFlight == Sum(m.running, AtHost(a))
    && s.pending == Sum(m.pulls, PullsFor(a)) + Sum(m.calls, For(a))
    && s.inFlight + s.pending <= s.cfg.slots
  }

  /** Intents wait only while every slot is taken or promised. */
  ghost predicate Busy(s: PullerState)
  {
    s.intents != [] ==> s.inFlight + s.pending >= s.cfg.slots
  }

  lemma AfterPullerSlots(m: Machine, r: nat, fx: Pulled, a: Address)
    requires r < |m.pullers|
    ensures var n := AfterPuller(m, r, fx);
            && Sum(n.running, AtHost(a)) == Sum(m.running, AtHost(a)) + Sum(fx.begun, AtHost(a))
            && Sum(n.pulls, PullsFor(a)) == Sum(m.pulls, PullsFor(a)) + Sum(fx.pulls, PullsFor(a))
  {
    SumConcat(m.running, fx.begun, AtHost(a));
    SumConcat(m.pulls, fx.pulls, PullsFor(a));
  }

  /** What draining promises is what it sends pulls for. */
  lemma DrainSlots(s: PullerState, audit: seq<AuditEvent>, a: Address)
    requires forall x: PullIntent :: x in s.intents ==> x.senderId in s.cfg.senders
    requires s.inFlight + s.pending <= s.cfg.slots
    ensures var fx := Drain(Pulled(s, [], [], audit));
            && fx.puller == s.(pending := fx.puller.pending, intents := fx.puller.intents) && fx.begun == []
            && Sum(fx.pulls, PullsFor(a)) == (if a == s.cfg.at then fx.puller.pending - s.pending else 0)
            && fx.puller.inFlight + fx.puller.pending <= s.cfg.slots
            && (|s.intents| <= 1 || Busy(s) || s.inFlight + s.pending + 1 == s.cfg.slots ==> Busy(fx.puller))
  {
    if s.inFlight + s.pending < s.cfg.slots && s.intents != [] {
      SumOne(PullTo(s.intents[0].senderId, CallPull(s.cfg.at.microservice, s.cfg.at.server, s.cfg.at.server, s.intents[0].requestId)),
             PullsFor(a));
    }
  }

  lemma Addresses(m: Machine, x: nat, r: nat)
    requires Wired(m) && x < |m.pullers| && r < |m.pullers|
    ensures m.pullers[x].cfg.at == m.pullers[r].cfg.at <==> x == r
  {
    assert PullerWired(m, x);
  }

  /** What a replica's handler does to its slots: its counts change with what it begins, ends and sends. */
  ghost predicate Slotted(s: PullerState, fx: Pulled, used: int, ended: int, a: Address)
  {
    && fx.puller.cfg == s.cfg
    && fx.puller.inFlight == s.inFlight - ended + Sum(fx.begun, AtHost(s.cfg.at))
    && fx.puller.pending == s.pending - used + Sum(fx.pulls, PullsFor(s.cfg.at))
    && fx.puller.inFlight + fx.puller.pending <= s.cfg.slots
    && (a != s.cfg.at ==> Sum(fx.begun, AtHost(a)) == 0 && Sum(fx.pulls, PullsFor(a)) == 0)
  }

  lemma ReceiveSlots(s: PullerState, intent: PullIntent, a: Address)
    requires s.cfg.senders != {} && intent.senderId in s.cfg.senders && s.inFlight + s.pending <= s.cfg.slots
    requires forall x: PullIntent :: x in s.intents ==> x.senderId in s.cfg.senders
    ensures Slotted(s, ReceiveIntent(s, intent), 0, 0, a) && (Busy(s) ==> Busy(ReceiveIntent(s, intent).puller))
  {
    EnqueueKnown(s.intents, intent, s.cfg.edf, s.cfg.senders);
    var queued := s.(intents := S.Enqueue(s.intents, intent, s.cfg.edf));
    var audit := [Received(s.cfg.at, intent.senderId, intent.requestId, intent.deadline, |s.intents|)];
    DrainSlots(queued, audit, a);
    DrainSlots(queued, audit, s.cfg.at);
  }

  lemma FinishSlots(s: PullerState, a: Address)
    requires s.cfg.senders != {} && s.inFlight > 0 && s.inFlight + s.pending <= s.cfg.slots
    requires forall x: PullIntent :: x in s.intents ==> x.senderId in s.cfg.senders
    ensures Slotted(s, Finish(s), 0, 1, a) && (Busy(s) ==> Busy(Finish(s).puller))
  {
    DrainSlots(s.(inFlight := s.inFlight - 1), [], a);
    DrainSlots(s.(inFlight := s.inFlight - 1), [], s.cfg.at);
  }

  /** A pulled call uses the slot that was promised for it. */
  lemma ArriveSlots(s: PullerState, hop: Hop, duration: nat, now: Time, a: Address)
    requires s.cfg.senders != {} && s.pending > 0 && s.inFlight + s.pending <= s.cfg.slots
    ensures Slotted(s, Arrive(s, hop, duration, now), 1, 0, a)
    ensures Busy(s) && hop.endpoint in s.cfg.timed ==> Busy(Arrive(s, hop, duration, now).puller)
  {
    var fx := Arrive(s, hop, duration, now);
    if fx.begun != [] {
      SumOne(fx.begun[0], AtHost(a));
      SumOne(fx.begun[0], AtHost(s.cfg.at));
    }
  }

  /** A handler of replica `x` keeps every replica's slots exact. */
  lemma PullerSlots(l: Machine, x: nat, fx: Pulled, used: int, ended: int, r: nat)
    requires Wired(l) && x < |l.pullers| && r < |l.pullers|
    requires Slotted(l.pullers[x], fx, used, ended, l.pullers[r].cfg.at)
    requires var (s, a) := (l.pullers[r], l.pullers[r].cfg.at);
             && s.inFlight == Sum(l.running, AtHost(a)) + (if r == x then ended else 0)
             && s.pending == Sum(l.pulls, PullsFor(a)) + Sum(l.calls, For(a)) + (if r == x then used else 0)
             && s.inFlight + s.pending <= s.cfg.slots
    ensures SlotsExact(AfterPuller(l, x, fx), r)
  {
    Addresses(l, x, r);
    AfterPullerSlots(l, x, fx, l.pullers[r].cfg.at);
  }

  lemma IntentSlots(m: Machine, i: nat, x: nat, r: nat)
    requires Wired(m) && Enabled(m, TakeIntent(i, x)) && r < |m.pullers| && SlotsExact(m, r)
    requires SlotsExact(m, x)
    ensures SlotsExact(Next(m, TakeIntent(i, x)).value, r)
    ensures Busy(m.pullers[r]) ==> Busy(Next(m, TakeIntent(i, x)).value.pullers[r])
  {
    var s, intent := m.pullers[x], m.intents[i].intent;
    KnownSenders(m, x);
    ReceiveSlots(s, intent, m.pullers[r].cfg.at);
    LessWired(m, TakeIntent(i, x));
    PullerSlots(Less(m, TakeIntent(i, x)), x, ReceiveIntent(s, intent), 0, 0, r);
  }

  lemma PullSlots(m: Machine, i: nat, r: nat)
    requires Enabled(m, TakePull(i)) && Next(m, TakePull(i)).Some? && r < |m.pullers| && SlotsExact(m, r)
    ensures SlotsExact(Next(m, TakePull(i)).value, r)
    ensures Busy(m.pullers[r]) ==> Busy(Next(m, TakePull(i)).value.pullers[r])
  {
    var a := m.pullers[r].cfg.at;
    var fx := Fulfil(m.callers[m.pulls[i].to], m.pulls[i].pull).value;
    SumRemove(m.pulls, i, PullsFor(a));
    SumAppend(m.calls, fx.calls[0], For(a));
  }

  /** The endpoint of a call on its way has a service time at its server. */
  ghost predicate Timed(m: Machine, step: Step)
    requires Enabled(m, step)
  {
    step.TakeCall? ==> m.calls[step.i].hop.endpoint in m.pullers[step.r].cfg.timed
  }

  lemma CallSlots(m: Machine, i: nat, x: nat, duration: nat, now: Time, r: nat)
    requires Wired(m) && Enabled(m, TakeCall(i, x, duration, now)) && r < |m.pullers| && SlotsExact(m, r)
    requires SlotsExact(m, x)
    ensures SlotsExact(Next(m, TakeCall(i, x, duration, now)).value, r)
    ensures Busy(m.pullers[r]) && Timed(m, TakeCall(i, x, duration, now)) ==>
              Busy(Next(m, TakeCall(i, x, duration, now)).value.pullers[r])
  {
    var s, a := m.pullers[x], m.pullers[r].cfg.at;
    KnownSenders(m, x);
    Addresses(m, x, r);
    SumRemove(m.calls, i, For(a));
    SumAtLeast(m.calls, i, For(s.cfg.at));
    SumNonNegative(m.pulls, PullsFor(s.cfg.at));
    ArriveSlots(s, m.calls[i].hop, duration, now, a);
    LessWired(m, TakeCall(i, x, duration, now));
    PullerSlots(Less(m, TakeCall(i, x, duration, now)), x, Arrive(s, m.calls[i].hop, duration, now), 1, 0, r);
  }

  lemma EndSlots(m: Machine, i: nat, x: nat, r: nat)
    requires Wired(m) && Enabled(m, EndService(i, x)) && r < |m.pullers| && SlotsExact(m, r)
    requires SlotsExact(m, x)
    ensures SlotsExact(Next(m, EndService(i, x)).value, r)
    ensures Busy(m.pullers[r]) ==> Busy(Next(m, EndService(i, x)).value.pullers[r])
  {
    var s, a := m.pullers[x], m.pullers[r].cfg.at;
    KnownSenders(m, x);
    Addresses(m, x, r);
    SumRemove(m.running, i, AtHost(a));
    SumAtLeast(m.running, i, AtHost(s.cfg.at));
    FinishSlots(s, a);
    LessWired(m, EndService(i, x));
    PullerSlots(Less(m, EndService(i, x)), x, Finish(s), 0, 1, r);
  }

  ghost predicate AllSlotsExact(m: Machine)
  {
    forall r :: 0 <= r < |m.pullers| ==> SlotsExact(m, r)
  }

  ghost predicate AllBusy(m: Machine)
  {
    forall r :: 0 <= r < |m.pullers| ==> Busy(m.pullers[r])
  }

  /** Services and promises stay within the slots, and exact; intents wait only at full servers, unless a call comes
      whose endpoint has no service time. */
  lemma NextSlots(m: Machine, step: Step)
    requires Wired(m) && Enabled(m, step) && Next(m, step).Some? && AllSlotsExact(m)
    ensures AllSlotsExact(Next(m, step).value)
    ensures AllBusy(m) && Timed(m, step) ==> AllBusy(Next(m, step).value)
  {
    var n := Next(m, step).value;
    NextWired(m, step);
    forall r | 0 <= r < |n.pullers| ensures SlotsExact(n, r) && (AllBusy(m) && Timed(m, step) ==> Busy(n.pullers[r])) {
      assert SlotsExact(m, r);
      SlotsOf(m, step, r);
    }
  }

  lemma SlotsOf(m: Machine, step: Step, r: nat)
    requires Wired(m) && Enabled(m, step) && Next(m, step).Some? && AllSlotsExact(m) && r < |m.pullers|
    requires |Next(m, step).value.pullers| == |m.pullers|
    ensures SlotsExact(Next(m, step).value, r)
    ensures Busy(m.pullers[r]) && Timed(m, step) ==> Busy(Next(m, step).value.pullers[r])
  {
    assert SlotsExact(m, r);
    match step
    case Post(b, call, pick) => assert m.calls + Outbound(m.callers[b], call, pick).calls == m.calls;
    case TakeIntent(i, x) => assert SlotsExact(m, x); IntentSlots(m, i, x, r);
    case TakePull(i) => PullSlots(m, i, r);
    case TakeCall(i, x, duration, now) => assert SlotsExact(m, x); CallSlots(m, i, x, duration, now, r);
    case EndService(i, x) => assert SlotsExact(m, x); EndSlots(m, i, x, r);
  }
}
